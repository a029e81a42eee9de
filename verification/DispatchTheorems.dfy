/** What the dispatch protocol guarantees in every run. */
module DispatchTheorems {
  import opened Options
  import opened Journal
  import opened Dispatch
  import opened DispatchInvariant

  /**
   At most once: in every reachable world, no idempotency key was dispatched
   twice, and every key that was dispatched is in the journal file, and in the
   memory of a running gateway, with the dispatched command's own record.
   */
  lemma DispatchedAtMostOnce(steps: seq<Step>)
    requires After(steps).Some?
    ensures var w := After(steps).value;
      && (forall i, j :: 0 <= i < j < |w.h.sent| ==> w.h.sent[i].key != w.h.sent[j].key)
      && (forall i :: 0 <= i < |w.h.sent| ==>
            && w.h.sent[i].key in w.j.file.entries
            && w.j.file.entries[w.h.sent[i].key].commandId == w.h.sent[i].token
            && (w.up ==> w.h.sent[i].key in w.j.memory.entries
                         && w.j.memory.entries[w.h.sent[i].key].commandId == w.h.sent[i].token))
  {
    ReachableInv(steps);
    var w := After(steps).value;
    forall i | 0 <= i < |w.h.sent|
      ensures w.h.sent[i].key in w.j.file.entries
      ensures w.j.file.entries[w.h.sent[i].key].commandId == w.h.sent[i].token
      ensures w.up ==> w.h.sent[i].key in w.j.memory.entries && w.j.memory.entries[w.h.sent[i].key].commandId == w.h.sent[i].token
    {
      assert SentOk(w.h, w.j.file, w.h.sent[i]);
    }
  }

  /**
   Write-ahead: whenever client.dispatch is about to be called, the record is on
   disk under its key and nothing was ever dispatched under that key; and a
   task's message goes out only when its thread's create is known to be applied.
   */
  lemma DispatchIsWriteAhead(steps: seq<Step>, c: Caller)
    requires After(steps).Some? && Enabled(After(steps).value, SendCommand(c))
    ensures var w := After(steps).value;
      var Ready(req, rec) := w.callers[c];
      && Holds(w.j.file, rec)
      && (forall i :: 0 <= i < |w.h.sent| ==> w.h.sent[i].key != rec.key)
      && (req.task.Some? && rec.kind.TurnStart? ==> rec.threadId.Some? && CreatedFor(w.h, req.task.value, rec.threadId.value))
  {
    ReachableInv(steps);
    hide Inv;
    ReadyIsWriteAhead(After(steps).value, c);
  }

  lemma ReadyIsWriteAhead(w: World, c: Caller)
    requires Inv(w) && c in w.callers && w.callers[c].Ready?
    ensures var Ready(req, rec) := w.callers[c];
      && Holds(w.j.file, rec)
      && (forall i :: 0 <= i < |w.h.sent| ==> w.h.sent[i].key != rec.key)
      && (req.task.Some? && rec.kind.TurnStart? ==> rec.threadId.Some? && CreatedFor(w.h, req.task.value, rec.threadId.value))
  {
    hide Inv;
    PhaseIsGood(w, c);
    forall i | 0 <= i < |w.h.sent| ensures w.h.sent[i].key != w.callers[c].rec.key {
      ReadyKeyIsNew(w, c, i);
    }
  }

  /** The positions in the dispatch history of a task's own commands of a kind. */
  function TaskCommands(sent: seq<Sent>, task: string, kind: Kind): set<nat> {
    set i: nat | i < |sent| && sent[i].task == Some(task) && sent[i].kind == kind
  }

  /**
   However often and however concurrently a task is started, and whatever
   crashes in between, it dispatches at most one thread.create and one
   thread.turn.start and nothing else, and the turn goes to the thread of a
   create that T3 had applied.
   */
  lemma TaskDispatchesAtMostTwice(steps: seq<Step>, task: string)
    requires After(steps).Some?
    ensures var w := After(steps).value;
      && (forall i, j :: i in TaskCommands(w.h.sent, task, ThreadCreate) && j in TaskCommands(w.h.sent, task, ThreadCreate) ==> i == j)
      && (forall i, j :: i in TaskCommands(w.h.sent, task, TurnStart) && j in TaskCommands(w.h.sent, task, TurnStart) ==> i == j)
      && (forall i :: 0 <= i < |w.h.sent| && w.h.sent[i].task == Some(task) ==>
            i in TaskCommands(w.h.sent, task, ThreadCreate) || i in TaskCommands(w.h.sent, task, TurnStart))
      && (forall i :: i in TaskCommands(w.h.sent, task, TurnStart) ==>
            && w.h.sent[i].thread.Some?
            && CreatedFor(w.h, task, w.h.sent[i].thread.value)
            && HoldsThread(w.h, w.h.sent[i].thread.value))
  {
    ReachableInv(steps);
    var w := After(steps).value;
    forall i | 0 <= i < |w.h.sent| && w.h.sent[i].task == Some(task)
      ensures TaskCall(w.h, w.h.sent[i].kind, w.h.sent[i].key, w.h.sent[i].thread, Some(task))
    {
      assert SentOk(w.h, w.j.file, w.h.sent[i]);
    }
    forall i | i in TaskCommands(w.h.sent, task, TurnStart)
      ensures w.h.sent[i].thread.Some? && CreatedFor(w.h, task, w.h.sent[i].thread.value) && HoldsThread(w.h, w.h.sent[i].thread.value)
    {
      KeysDiffer(task);
      CreatedIsHeld(w, task, w.h.sent[i].thread.value);
    }
  }

  /** A task's two keys are different. */
  lemma KeysDiffer(task: string)
    ensures ThreadKey(task) != RunKey(task)
  {
    assert |ThreadKey(task)| != |RunKey(task)|;
  }

  lemma CreatedIsHeld(w: World, task: string, thread: Id)
    requires Inv(w) && CreatedFor(w.h, task, thread)
    ensures HoldsThread(w.h, thread)
  {
    var i :| 0 <= i < |w.h.sent| && w.h.sent[i].token == thread;
    assert SentOk(w.h, w.j.file, w.h.sent[i]);
  }

  /**
   Statuses are sound against T3: in memory and in the file, an accepted
   record's command was applied, and a rejected record's command was not.
   */
  lemma StatusesAreSound(steps: seq<Step>, key: string)
    requires After(steps).Some?
    ensures var w := After(steps).value;
      forall s :: s in {w.j.memory, w.j.file} && key in s.entries ==>
        var r := s.entries[key];
        && (r.status.Accepted? ==> r.commandId in w.h.applied && exists i :: 0 <= i < |w.h.sent| && w.h.sent[i].token == r.commandId && w.h.sent[i].key == key)
        && (r.status.Rejected? ==> r.commandId !in w.h.applied)
  {
    ReachableInv(steps);
    var w := After(steps).value;
    forall s | s in {w.j.memory, w.j.file} && key in s.entries
      ensures var r := s.entries[key];
        && (r.status.Accepted? ==> r.commandId in w.h.applied && exists i :: 0 <= i < |w.h.sent| && w.h.sent[i].token == r.commandId && w.h.sent[i].key == key)
        && (r.status.Rejected? ==> r.commandId !in w.h.applied)
    {
      var r := s.entries[key];
      assert GoodRecord(w.h, r) && r.key == key;
      if r.status.Accepted? {
        var i :| 0 <= i < |w.h.sent| && w.h.sent[i].token == r.commandId;
        assert SentOk(w.h, w.j.file, w.h.sent[i]);
      }
    }
  }

  lemma StepGrows(w: World, step: Step)
    requires Enabled(w, step)
    ensures var g := Next(w, step).h;
      w.h.applied <= g.applied && w.h.refused <= g.refused && w.h.abandoned <= g.abandoned
  {
    hide Found, StageOf;
  }

  lemma {:induction false} HistoryGrows(steps: seq<Step>, n: nat)
    requires After(steps).Some? && n <= |steps|
    ensures After(steps[..n]).Some?
    ensures var early, late := After(steps[..n]).value.h, After(steps).value.h;
      early.applied <= late.applied && early.refused <= late.refused && early.abandoned <= late.abandoned
  {
    if n == |steps| {
      assert steps[..n] == steps;
    } else {
      var last := steps[|steps| - 1];
      assert steps[..|steps| - 1][..n] == steps[..n];
      HistoryGrows(steps[..|steps| - 1], n);
      StepGrows(After(steps[..|steps| - 1]).value, last);
    }
  }

  /** A rejection is final: whatever happens afterwards, T3 never applies the command of a record once marked rejected. */
  lemma RejectedNeverApplies(steps: seq<Step>, n: nat, key: string)
    requires After(steps).Some? && n <= |steps| && After(steps[..n]).Some?
    requires var w := After(steps[..n]).value; key in w.j.memory.entries && w.j.memory.entries[key].status.Rejected?
    ensures After(steps[..n]).value.j.memory.entries[key].commandId !in After(steps).value.h.applied
  {
    HistoryGrows(steps, n);
    ReachableInv(steps[..n]);
    ReachableInv(steps);
    var early := After(steps[..n]).value;
    assert GoodRecord(early.h, early.j.memory.entries[key]);
  }

  /** The records in memory are filed under their own keys with distinct operation ids, so update finds the record it means. */
  lemma MemoryIsIndexed(steps: seq<Step>)
    requires After(steps).Some?
    ensures Indexed(After(steps).value.j.memory.entries)
  {
    ReachableInv(steps);
    var w := After(steps).value;
    var entries := w.j.memory.entries;
    forall k, l | k in entries && l in entries && entries[k].operationId == entries[l].operationId ensures k == l {
      assert GoodRecord(w.h, entries[k]) && GoodRecord(w.h, entries[l]);
      SameIdSameRecord(w.h, entries[k], entries[l]);
    }
  }

  /** Init loads the file as it is, but for the records left prepared, which become uncertain; it writes if there was one. */
  lemma InitLeavesNothingPrepared(steps: seq<Step>, c: Caller)
    requires After(steps).Some? && !After(steps).value.up
    ensures var w := After(steps).value;
      var v := Next(w, Init(c));
      && v.up && v.j.memory.entries.Keys == w.j.file.entries.Keys
      && (forall k :: k in v.j.memory.entries ==>
            v.j.memory.entries[k] == w.j.file.entries[k].(status :=
              if w.j.file.entries[k].status.Prepared? then Uncertain else w.j.file.entries[k].status))
      && v.j.memory.tasks == w.j.file.tasks && v.j.file == w.j.file && v.h == w.h
      && (v.j.queue == if exists k :: k in w.j.file.entries && w.j.file.entries[k].status.Prepared?
                       then w.j.queue + [c] else w.j.queue)
  {
    var w := After(steps).value;
    var loaded := Recovered(w.j.file.entries);
    if k :| k in w.j.file.entries && w.j.file.entries[k].status.Prepared? {
      assert loaded[k] != w.j.file.entries[k];
    } else {
      assert loaded == w.j.file.entries;
    }
  }

  /**
   The command sent under the task's run key was applied. T3 holds its message
   exactly when the record was begun as a turn start; a command sent for the task
   itself was one, and went to the thread of the task's own applied create.
   */
  ghost predicate RunApplied(h: History, task: string, i: nat)
    requires i < |h.sent|
  {
    var s := h.sent[i];
    && s.key == RunKey(task) && s.token in h.applied && s.token in h.born
    && (HoldsMessage(h, s.token) <==> h.born[s.token].kind.TurnStart?)
    && (s.task == Some(task) ==> s.kind.TurnStart? && s.thread.Some? && CreatedFor(h, task, s.thread.value))
  }

  lemma RunCommandIsApplied(w: World, task: string)
    requires Inv(w) && AppliedUnder(w.h, RunKey(task))
    ensures exists i :: 0 <= i < |w.h.sent| && RunApplied(w.h, task, i)
  {
    var id :| id in w.h.born && w.h.born[id].key == RunKey(task) && id in w.h.applied;
    var i :| 0 <= i < |w.h.sent| && w.h.sent[i].token == id;
    assert SentOk(w.h, w.j.file, w.h.sent[i]);
    KeysDiffer(task);
    if HoldsMessage(w.h, id) {
      var k :| 0 <= k < |w.h.sent| && w.h.sent[k].kind.TurnStart? && w.h.sent[k].message == Some(id) && w.h.sent[k].token in w.h.applied;
      assert SentOk(w.h, w.j.file, w.h.sent[k]);
    }
    assert RunApplied(w.h, task, i);
  }

  /**
   In every reachable world a task whose stage is run_accepted, in memory or in
   the file, has had a command under its run key applied, with its message at T3
   exactly when that record was begun as a turn start.
   */
  lemma RunAcceptedMeansApplied(steps: seq<Step>, task: string)
    requires After(steps).Some?
    ensures var w := After(steps).value;
      forall s :: s in {w.j.memory, w.j.file} && task in s.tasks && s.tasks[task].stage.RunAccepted? ==>
        exists i :: 0 <= i < |w.h.sent| && RunApplied(w.h, task, i)
  {
    ReachableInv(steps);
    var w := After(steps).value;
    forall s | s in {w.j.memory, w.j.file} && task in s.tasks && s.tasks[task].stage.RunAccepted?
      ensures exists i :: 0 <= i < |w.h.sent| && RunApplied(w.h, task, i)
    {
      assert GoodTask(w.h, s.tasks[task]);
      RunCommandIsApplied(w, task);
    }
  }

  /**
   The other decided stages are sound too, in memory and in the file: a task at
   thread_created has had a command under its thread key applied, and a task at
   dispatch_rejected had one under its run key that T3 does not and will not hold.
   */
  lemma StagesAreSound(steps: seq<Step>, task: string)
    requires After(steps).Some?
    ensures var w := After(steps).value;
      forall s :: s in {w.j.memory, w.j.file} && task in s.tasks ==>
        && (s.tasks[task].stage.ThreadCreated? ==> AppliedUnder(w.h, ThreadKey(task)))
        && (s.tasks[task].stage.DispatchRejected? ==>
              exists id :: id in w.h.born && w.h.born[id].key == RunKey(task) && id !in w.h.applied
                           && (id in w.h.refused || id in w.h.abandoned))
  {
    ReachableInv(steps);
    var w := After(steps).value;
    forall s | s in {w.j.memory, w.j.file} && task in s.tasks && s.tasks[task].stage.DispatchRejected?
      ensures exists id :: id in w.h.born && w.h.born[id].key == RunKey(task) && id !in w.h.applied
                           && (id in w.h.refused || id in w.h.abandoned)
    {
      assert GoodTask(w.h, s.tasks[task]) && RefusedUnder(w.h, RunKey(task));
    }
    forall s | s in {w.j.memory, w.j.file} && task in s.tasks && s.tasks[task].stage.ThreadCreated?
      ensures AppliedUnder(w.h, ThreadKey(task))
    {
      assert GoodTask(w.h, s.tasks[task]);
    }
  }

  // ----- How long an acceptance stays -----

  /** A stopped gateway remembers nothing. */
  lemma {:induction false} StoppedIsEmpty(steps: seq<Step>)
    requires After(steps).Some? && !After(steps).value.up
    ensures After(steps).value.j.memory == NOTHING
  {
    if steps != [] {
      var before, step := After(steps[..|steps| - 1]).value, steps[|steps| - 1];
      ReachableInv(steps[..|steps| - 1]);
      if !before.up {
        StoppedIsEmpty(steps[..|steps| - 1]);
      }
      DownAfter(before, step);
    }
  }

  /** A gateway is down after a step because it crashed, or was down and stayed so with its memory. */
  lemma DownAfter(w: World, step: Step)
    requires Inv(w) && Enabled(w, step) && !Next(w, step).up
    ensures step.Crash? || (!w.up && Next(w, step).j.memory == w.j.memory)
  {
    assert !w.up ==> w.callers == map[] && w.j.queue == [] && w.j.writing.None?;
    hide Inv, Found;
  }

  predicate IsAccepted(s: Store, key: string) { key in s.entries && s.entries[key].status.Accepted? }

  /** The caller waits for T3's answer about the record under the key. */
  predicate AwaitsUnder(w: World, c: Caller, key: string) {
    && c in w.callers && w.callers[c].AwaitingT3? && w.callers[c].rec.key == key
    && key in w.j.memory.entries && w.j.memory.entries[key].operationId == w.callers[c].rec.operationId
  }

  /** The running write is that of an acceptance of the record under the key, which dispatchNew guards. */
  predicate GuardsUnder(w: World, key: string) {
    && w.j.queue != [] && w.j.queue[0] in w.callers
    && var p := w.callers[w.j.queue[0]];
       && p.Settling? && p.guarded && p.rec.key == key
       && key in w.j.memory.entries && w.j.memory.entries[key].operationId == p.rec.operationId
  }

  /** The three steps that end an acceptance in memory. */
  predicate EndsAcceptance(w: World, step: Step, key: string) {
    || (step.AnswerLost? && AwaitsUnder(w, step.c, key))
    || (step.FailWrite? && GuardsUnder(w, key))
    || step.Crash?
  }

  /** A patch of another record, or to accepted, leaves the acceptance. */
  lemma PatchOfAccepted(w: World, c: Caller, req: Request, rec: Record, status: Status, guarded: bool, key: string)
    requires IsAccepted(w.j.memory, key)
    ensures IsAccepted(Patch(w, c, req, rec, status, guarded).j.memory, key)
       <==> !(Holds(w.j.memory, rec) && rec.key == key && !status.Accepted?)
  {
  }

  /** A refused or abandoned command is not that of an accepted record. */
  lemma AcceptedIsNotRefused(w: World, key: string, rec: Record)
    requires Inv(w) && IsAccepted(w.j.memory, key) && Holds(w.j.memory, rec) && rec.key == key && Born(w.h, rec)
    ensures rec.commandId in w.h.applied && rec.commandId !in w.h.refused && rec.commandId in Tokens(w.h.sent)
  {
    assert GoodRecord(w.h, w.j.memory.entries[key]);
    SameIdSameRecord(w.h, rec, w.j.memory.entries[key]);
  }

  /** T3 has not refused, and nobody has given up, the command of an accepted record. */
  lemma RejectionIsOfAnother(w: World, step: Step, key: string)
    requires Inv(w) && Enabled(w, step) && IsAccepted(w.j.memory, key) && (step.AbandonCommand? || step.AnswerRefused?)
    ensures !(Holds(w.j.memory, w.callers[step.c].rec) && w.callers[step.c].rec.key == key)
  {
    var p := w.callers[step.c];
    PhaseIsGood(w, step.c);
    hide Inv;
    if Holds(w.j.memory, p.rec) && p.rec.key == key {
      AcceptedIsNotRefused(w, key, p.rec);
    }
  }

  /** A step that settles a record's status. */
  predicate SettlingStep(step: Step) { step.AbandonCommand? || AnswerStep(step) }

  lemma LostAnswerOnAccepted(w: World, c: Caller, key: string)
    requires Enabled(w, AnswerLost(c)) && IsAccepted(w.j.memory, key)
    ensures IsAccepted(Next(w, AnswerLost(c)).j.memory, key) <==> !AwaitsUnder(w, c, key)
  {
    PatchOfAccepted(w, c, w.callers[c].req, w.callers[c].rec, Uncertain, false, key);
  }

  lemma RejectionOnAccepted(w: World, step: Step, key: string)
    requires Inv(w) && Enabled(w, step) && IsAccepted(w.j.memory, key) && (step.AbandonCommand? || step.AnswerRefused?)
    ensures IsAccepted(Next(w, step).j.memory, key)
  {
    RejectionIsOfAnother(w, step, key);
    hide Inv;
    var req, rec := w.callers[step.c].req, w.callers[step.c].rec;
    var v := if step.AbandonCommand? then w.(h := w.h.(abandoned := w.h.abandoned + {rec.commandId})) else w;
    PatchOfAccepted(v, step.c, req, rec, Rejected, false, key);
  }

  lemma AcceptanceOnAccepted(w: World, step: Step, key: string)
    requires Enabled(w, step) && IsAccepted(w.j.memory, key) && (step.AnswerAccepted? || step.ReconcileEnds?)
    ensures IsAccepted(Next(w, step).j.memory, key)
  {
    PatchOfAccepted(w, step.c, w.callers[step.c].req, w.callers[step.c].rec, Accepted, step.AnswerAccepted?, key);
  }

  /** An answer, reconciliation or abandonment on behalf of a caller. */
  lemma SettlingStepOnAccepted(w: World, step: Step, key: string)
    requires Inv(w) && Enabled(w, step) && IsAccepted(w.j.memory, key) && SettlingStep(step)
    ensures IsAccepted(Next(w, step).j.memory, key) <==> !EndsAcceptance(w, step, key)
  {
    hide Inv, Enabled, Next, AwaitsUnder, IsAccepted;
    match step
    case AnswerLost(c) => LostAnswerOnAccepted(w, c, key);
    case AbandonCommand(_) => RejectionOnAccepted(w, step, key);
    case AnswerRefused(_) => RejectionOnAccepted(w, step, key);
    case AnswerAccepted(_) => AcceptanceOnAccepted(w, step, key);
    case ReconcileEnds(_, _) => AcceptanceOnAccepted(w, step, key);
  }

  /** Steps about tasks and their summaries, and new records. */
  lemma TaskStepOnAccepted(w: World, step: Step, key: string)
    requires Enabled(w, step) && IsAccepted(w.j.memory, key)
    requires step.StartTask? || step.ReadFails? || step.BeginRecord? || step.Return? || step.SummaryReconciles? || step.SummaryEnds?
    ensures IsAccepted(Next(w, step).j.memory, key)
  {
  }

  /** A write of an acceptance fails: the record becomes uncertain. */
  lemma FailedWriteOnAccepted(w: World, key: string)
    requires Enabled(w, FailWrite) && IsAccepted(w.j.memory, key)
    ensures IsAccepted(Next(w, FailWrite).j.memory, key) <==> !GuardsUnder(w, key)
  {
    var c, failed := w.j.queue[0], w.(j := Broken(w.j));
    if c in w.callers && w.callers[c].Settling? && w.callers[c].guarded {
      PatchOfAccepted(Leave(failed, c), c, w.callers[c].req, w.callers[c].rec, Uncertain, false, key);
    }
  }

  /** No other step of a running gateway touches its records. */
  lemma OtherStepOnAccepted(w: World, step: Step, key: string)
    requires w.up && Enabled(w, step) && IsAccepted(w.j.memory, key) && !SettlingStep(step) && !step.Crash?
    requires !(step.StartTask? || step.ReadFails? || step.BeginRecord? || step.Return? || step.SummaryReconciles?
               || step.SummaryEnds? || step.FailWrite?)
    ensures Next(w, step).j.memory == w.j.memory
  {
    hide Found;
  }

  /**
   In every reachable world an accepted record stops being accepted in memory by
   exactly three steps: the answer to its own dispatch is lost after all, the
   guarded write of its acceptance fails, or the gateway stops.
   */
  lemma AcceptanceEndsExactly(steps: seq<Step>, step: Step, key: string)
    requires After(steps).Some? && Enabled(After(steps).value, step)
    requires IsAccepted(After(steps).value.j.memory, key)
    ensures var w := After(steps).value;
      IsAccepted(Next(w, step).j.memory, key) <==> !EndsAcceptance(w, step, key)
  {
    ReachableInv(steps);
    var w := After(steps).value;
    if !w.up {
      StoppedIsEmpty(steps);
    } else if SettlingStep(step) {
      SettlingStepOnAccepted(w, step, key);
    } else if step.FailWrite? {
      FailedWriteOnAccepted(w, key);
    } else if !step.Crash? {
      StepLeavesAcceptance(w, step, key);
    }
  }

  lemma StepLeavesAcceptance(w: World, step: Step, key: string)
    requires w.up && Enabled(w, step) && IsAccepted(w.j.memory, key) && !SettlingStep(step) && !step.Crash? && !step.FailWrite?
    ensures IsAccepted(Next(w, step).j.memory, key)
  {
    hide Next, Enabled;
    if step.StartTask? || step.ReadFails? || step.BeginRecord? || step.Return? || step.SummaryReconciles? || step.SummaryEnds? {
      TaskStepOnAccepted(w, step, key);
    } else {
      OtherStepOnAccepted(w, step, key);
    }
  }

  // ----- What the protocol does not guarantee -----

  lemma Extend(steps: seq<Step>, w: World, step: Step) returns (longer: seq<Step>, v: World)
    requires After(steps) == Some(w) && Enabled(w, step)
    ensures longer == steps + [step] && v == Next(w, step) && After(longer) == Some(v)
  {
    longer, v := steps + [step], Next(w, step);
    assert longer[..|longer| - 1] == steps;
  }

  /** The first queued write runs to its end. */
  lemma WriteOut(steps: seq<Step>, w: World) returns (longer: seq<Step>, v: World)
    requires After(steps) == Some(w) && CanStart(w.j)
    ensures After(longer) == Some(v) && v == WriteFinished(w.(j := Started(w.j)))
  {
    var s, u := Extend(steps, w, StartWrite);
    longer, v := Extend(s, u, FinishWrite);
  }

  const EMPTY := History(map[], {}, [], {}, {}, {})

  /** In a fresh gateway, caller 1 has found no record under its key. */
  lemma ReadOne(input: Input) returns (steps: seq<Step>, w: World)
    ensures After(steps) == Some(w)
    ensures w == World(State(NOTHING, NOTHING, [], None), true, map[1 := Reading(Request(input, None))], EMPTY)
  {
    assert Recovered(NOTHING.entries) == map[];
    assert After([]) == Some(Initial());
    hide After, Found;
    var s, u := Extend([], Initial(), Init(1));
    assert u == World(State(NOTHING, NOTHING, [], None), true, map[], EMPTY);
    s, u := Extend(s, u, StartCall(1, input));
    steps, w := Extend(s, u, FindRecord(1));
  }

  /** It has then begun the record, which is on disk. */
  lemma BeginOne(input: Input) returns (steps: seq<Step>, w: World)
    ensures After(steps) == Some(w)
    ensures var r := NewRecord(input, 1);
      var store := Store(map[input.key := r], map[]);
      w == World(State(store, store, [], None), true, map[1 := Ready(Request(input, None), r)],
                 EMPTY.(born := map[1 := r]))
  {
    hide After, Found;
    var r := NewRecord(input, 1);
    var s, u := ReadOne(input);
    s, u := Extend(s, u, BeginRecord(1, 1));
    assert u.callers == map[1 := Saving(Request(input, None), r)];
    steps, w := WriteOut(s, u);
    assert w.callers == map[1 := Ready(Request(input, None), r)];
  }

  /** A gateway with one record on disk, whose command caller 1 has dispatched and T3 has applied. */
  function Dispatched(input: Input): World {
    var r := NewRecord(input, 1);
    var store := Store(map[input.key := r], map[]);
    World(State(store, store, [], None), true, map[1 := AwaitingT3(Request(input, None), r)],
          History(map[1 := r], {}, [CommandOf(Request(input, None), r)], {1}, {}, {}))
  }

  lemma DispatchOne(input: Input) returns (steps: seq<Step>)
    ensures After(steps) == Some(Dispatched(input))
  {
    hide After, Found;
    var r := NewRecord(input, 1);
    var s, u := BeginOne(input);
    s, u := Extend(s, u, SendCommand(1));
    assert u.callers == map[1 := AwaitingT3(Request(input, None), r)];
    TokensAppend([], CommandOf(Request(input, None), r));
    s, u := Extend(s, u, Apply(1));
    steps := s;
    assert u.h.applied == {1};
    assert u == Dispatched(input);
  }

  /** A second call under the key finds the record and begins to reconcile it. */
  lemma SecondCall(input: Input) returns (steps: seq<Step>, w: World)
    ensures After(steps) == Some(w)
    ensures var d := Dispatched(input);
      w == d.(callers := d.callers[2 := Reconciling(Request(input, None), NewRecord(input, 1))])
  {
    var s := DispatchOne(input);
    var u;
    s, u := Extend(s, Dispatched(input), StartCall(2, input));
    s, u := Extend(s, u, FindRecord(2));
    steps, w := s, u;
    assert w.callers == Dispatched(input).callers[2 := Reconciling(Request(input, None), NewRecord(input, 1))];
  }

  /**
   Acceptance is not sticky: a lost answer can overwrite the acceptance that a
   concurrent reconcile has recorded.
   */
  lemma AcceptedIsNotSticky() returns (steps: seq<Step>, n: nat, key: string)
    ensures n < |steps| && After(steps).Some? && After(steps[..n]).Some?
    ensures var early, late := After(steps[..n]).value.j.memory, After(steps).value.j.memory;
      && key in early.entries && early.entries[key].status.Accepted?
      && key in late.entries && late.entries[key].status.Uncertain?
  {
    key := "k";
    var input := Input(ThreadCreate, key, "h", None);
    var s, w := SecondCall(input);
    assert HoldsThread(w.h, 1) by { assert w.h.sent[0].token in w.h.applied; }
    var accepted, v := Extend(s, w, ReconcileEnds(2, true));
    n := |accepted|;
    assert v.callers[1] == AwaitingT3(Request(input, None), NewRecord(input, 1));
    var longer, u := Extend(accepted, v, AnswerLost(1));
    steps := longer;
    assert steps[..n] == accepted;
  }

  /** An approval response under a task's run key is accepted. */
  lemma ApprovalUnderRunKey(task: string) returns (steps: seq<Step>, w: World)
    ensures After(steps) == Some(w)
    ensures var r := NewRecord(Input(ApprovalRespond, RunKey(task), "h", Some(7)), 1);
      && w.up && w.callers.Keys == {1} && w.h.sent == [CommandOf(Request(Input(ApprovalRespond, RunKey(task), "h", Some(7)), None), r)]
      && w.j == State(Store(map[RunKey(task) := r.(status := Accepted)], map[]), Store(map[RunKey(task) := r], map[]), [1], None)
      && w.callers[1].Settling?
  {
    var input := Input(ApprovalRespond, RunKey(task), "h", Some(7));
    var s := DispatchOne(input);
    steps, w := Extend(s, Dispatched(input), AnswerAccepted(1));
  }

  /** The task is then started, and its record is on disk. */
  lemma TaskStartedAfter(task: string) returns (steps: seq<Step>, w: World)
    ensures After(steps) == Some(w) && 2 in w.callers && w.callers[2] == TaskGate(Task(1, task, "h", TaskPrepared))
    ensures w.j.memory.tasks == map[task := Task(1, task, "h", TaskPrepared)] && |w.h.sent| == 1 && w.h.sent[0].kind.ApprovalRespond?
    ensures RunKey(task) in w.j.memory.entries && w.j.memory.entries[RunKey(task)].status.Accepted?
    ensures ThreadKey(task) !in w.j.memory.entries
  {
    hide After, Found;
    var s, u := ApprovalUnderRunKey(task);
    var t := Task(1, task, "h", TaskPrepared);
    s, u := Extend(s, u, StartTask(2, task, "h", 1));
    assert u.j.queue == [1, 2] && u.callers[2] == TaskSaving(t);
    s, u := WriteOut(s, u);
    assert u.j.queue == [2] && u.callers[2] == TaskSaving(t);
    steps, w := WriteOut(s, u);
    KeysDiffer(task);
  }

  /**
   A task can reach run_accepted although T3 was never sent a message: an
   accepted approval response recorded earlier under the task's run key is taken
   for the task's run.
   */
  lemma RunAcceptedWithoutMessage() returns (steps: seq<Step>, task: string)
    ensures After(steps).Some?
    ensures var w := After(steps).value;
      && task in w.j.memory.tasks && w.j.memory.tasks[task].stage.RunAccepted?
      && forall i :: 0 <= i < |w.h.sent| ==> !w.h.sent[i].kind.TurnStart?
  {
    hide After, Found;
    task := "t";
    var s, u := TaskStartedAfter(task);
    var run := u.j.memory.entries[RunKey(task)];
    s, u := Extend(s, u, Gate(2, "h"));
    assert u.callers[2] == Summary(Task(1, task, "h", TaskPrepared), None, Some(run));
    s, u := Extend(s, u, SummaryEnds(2, true));
    steps := s;
  }
}
