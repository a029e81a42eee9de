/**
 The operation journal (src/operations/journal.ts): records under idempotency
 keys in memory, and a file that is replaced whole by writes that run one after
 another, each writing the memory of the moment it starts.
 */
module Journal {
  import opened Options

  /** A fresh identifier. One is drawn for each record; the record's own ids are made from it. */
  type Id = nat

  /** A caller waiting for a journal write. */
  type Caller = nat

  datatype Kind = ThreadCreate | TurnStart | ApprovalRespond | UserInputRespond

  datatype Status = Prepared | Accepted | Uncertain | Rejected

  datatype Record = Record(
    operationId: Id,
    kind: Kind,
    key: string,
    payloadHash: string,
    commandId: Id,
    status: Status,
    threadId: Option<Id>,
    messageId: Option<Id>)

  datatype Stage =
    | TaskPrepared | ThreadCreateUncertain | ThreadCreated
    | DispatchRejected | DispatchUncertain | RunAccepted | TaskRejected

  datatype Task = Task(taskRef: Id, key: string, payloadHash: string, stage: Stage)

  datatype Store = Store(entries: map<string, Record>, tasks: map<string, Task>)

  /** What a caller asks of begin: the operation's kind, key, payload hash and target thread. */
  datatype Input = Input(kind: Kind, key: string, payloadHash: string, threadId: Option<Id>)

  datatype Begun = Conflict | Reused(record: Record) | Fresh(record: Record)

  datatype TaskBegun = TaskConflict | TaskReused(task: Task) | TaskFresh(task: Task)

  datatype NotFound = NotFound

  /** The idempotency keys of a task's two operations. */
  function ThreadKey(taskKey: string): string { taskKey + ":thread" }

  function RunKey(taskKey: string): string { taskKey + ":turn" }

  /** The record begin prepares: a created thread and a sent message get the fresh id. */
  function NewRecord(input: Input, id: Id): Record {
    Record(id, input.kind, input.key, input.payloadHash, id, Prepared,
           if input.kind.ThreadCreate? then Some(id) else input.threadId,
           if input.kind.TurnStart? then Some(id) else None)
  }

  /** A record that nothing has happened to yet, with the payload, kind and key that were asked for. */
  predicate PreparedFor(r: Record, input: Input, id: Id) {
    && r.operationId == id == r.commandId && r.status.Prepared?
    && r.key == input.key && r.kind == input.kind && r.payloadHash == input.payloadHash
    && r.threadId == (if input.kind.ThreadCreate? then Some(id) else input.threadId)
    && (r.messageId.Some? <==> input.kind.TurnStart?) && (r.messageId.Some? ==> r.messageId == Some(id))
  }

  /** begin, up to its write: a known key is reused or refused, a new one gets a prepared record. */
  function Begin(entries: map<string, Record>, input: Input, id: Id): Begun {
    if input.key in entries then
      var existing := entries[input.key];
      if existing.payloadHash != input.payloadHash || existing.kind != input.kind then Conflict else Reused(existing)
    else Fresh(NewRecord(input, id))
  }

  /** beginTask, up to its write. */
  function BeginTask(tasks: map<string, Task>, key: string, payloadHash: string, ref: Id): TaskBegun {
    if key in tasks then
      if tasks[key].payloadHash != payloadHash then TaskConflict else TaskReused(tasks[key])
    else TaskFresh(Task(ref, key, payloadHash, TaskPrepared))
  }

  /** init's recovery: a record left prepared by a stopped gateway becomes uncertain. */
  function Recovered(entries: map<string, Record>): (r: map<string, Record>)
    ensures r.Keys == entries.Keys
    ensures forall k :: k in r ==> !r[k].status.Prepared?
  {
    map k | k in entries :: if entries[k].status.Prepared? then entries[k].(status := Uncertain) else entries[k]
  }

  /** Memory, the file, the callers whose writes are queued, and what the running write, the first one's, is writing. */
  datatype State = State(memory: Store, file: Store, queue: seq<Caller>, writing: Option<Store>)

  /** A caller changes memory and queues a write of it. */
  function Save(s: State, memory: Store, caller: Caller): State {
    s.(memory := memory, queue := s.queue + [caller])
  }

  function SetStatus(s: Store, key: string, status: Status): Store
    requires key in s.entries
  {
    s.(entries := s.entries[key := s.entries[key].(status := status)])
  }

  function SetStage(s: Store, key: string, stage: Stage): Store
    requires key in s.tasks
  {
    s.(tasks := s.tasks[key := s.tasks[key].(stage := stage)])
  }

  predicate CanStart(s: State) { s.writing.None? && s.queue != [] }

  function Started(s: State): State { s.(writing := Some(s.memory)) }

  /** The write replaces the file and its caller goes on. */
  function Finished(s: State): State
    requires s.writing.Some? && s.queue != []
  {
    State(s.memory, s.writing.value, s.queue[1..], None)
  }

  /** The write fails; its caller gets the error and the next write may start. */
  function Broken(s: State): State
    requires s.writing.Some? && s.queue != []
  {
    State(s.memory, s.file, s.queue[1..], None)
  }

  /** Records are filed under their own keys and no two share an operation id. */
  ghost predicate Indexed(entries: map<string, Record>) {
    && (forall k :: k in entries ==> entries[k].key == k)
    && (forall k, l :: k in entries && l in entries && entries[k].operationId == entries[l].operationId ==> k == l)
  }

  ghost predicate IndexedTasks(tasks: map<string, Task>) {
    && (forall k :: k in tasks ==> tasks[k].key == k)
    && (forall k, l :: k in tasks && l in tasks && tasks[k].taskRef == tasks[l].taskRef ==> k == l)
  }

  class OperationJournal {
    var entries: map<string, Record>
    var tasks: map<string, Task>
    var initialized: bool
    /** The journal file on disk. */
    var file: Store
    var queue: seq<Caller>
    var writing: Option<Store>

    ghost function Contents(): State
      reads this
    {
      State(Store(entries, tasks), file, queue, writing)
    }

    ghost predicate Valid()
      reads this
    {
      Indexed(entries) && IndexedTasks(tasks)
    }

    constructor (onDisk: Store)
      ensures Contents() == State(Store(map[], map[]), onDisk, [], None) && !initialized && Valid()
    {
      entries, tasks, initialized, file, queue, writing := map[], map[], false, onDisk, [], None;
    }

    /** Loads the file once; a recovered record is written back. */
    method Init(caller: Caller) returns (recovered: nat)
      modifies this
      ensures initialized
      ensures old(initialized) ==> Contents() == old(Contents()) && recovered == 0
      ensures !old(initialized) ==>
        var loaded := Store(Recovered(file.entries), file.tasks);
        && (recovered > 0 <==> exists k :: k in file.entries && file.entries[k].status.Prepared?)
        && Contents() == if recovered > 0 then Save(old(Contents()), loaded, caller) else old(Contents()).(memory := loaded)
    {
      hide Recovered;
      if initialized { return 0; }
      recovered := Load();
      initialized := true;
      if recovered > 0 { queue := queue + [caller]; }
    }

    /** init's loop over the records of the file. */
    method Load() returns (recovered: nat)
      modifies this`entries, this`tasks
      ensures entries == Recovered(file.entries) && tasks == file.tasks
      ensures forall k :: k in entries && !file.entries[k].status.Prepared? ==> entries[k] == file.entries[k]
      ensures forall k :: k in entries && file.entries[k].status.Prepared? ==>
        entries[k].status.Uncertain? && entries[k].(status := Prepared) == file.entries[k]
      ensures recovered > 0 <==> exists k :: k in file.entries && file.entries[k].status.Prepared?
    {
      entries, tasks := file.entries, file.tasks;
      recovered := 0;
      var rest := entries.Keys;
      while rest != {}
        invariant rest <= file.entries.Keys && entries.Keys == file.entries.Keys && tasks == file.tasks
        invariant forall k :: k in rest ==> entries[k] == file.entries[k]
        invariant forall k :: k in entries && k !in rest ==> entries[k] == Recovered(file.entries)[k]
        invariant recovered > 0 <==> exists k :: k in file.entries && k !in rest && file.entries[k].status.Prepared?
        decreases rest
      {
        var key :| key in rest;
        rest := rest - {key};
        if entries[key].status.Prepared? {
          entries := entries[key := entries[key].(status := Uncertain)];
          recovered := recovered + 1;
        }
      }
      assert entries == Recovered(file.entries);
    }

    method BeginOperation(caller: Caller, input: Input, id: Id) returns (begun: Begun)
      modifies this`entries, this`queue
      ensures begun == Begin(old(entries), input, id)
      ensures begun.Conflict? <==>
        input.key in old(entries)
        && (old(entries)[input.key].payloadHash != input.payloadHash || old(entries)[input.key].kind != input.kind)
      ensures begun.Reused? ==> input.key in old(entries) && begun.record == old(entries)[input.key]
      ensures begun.Fresh? <==> input.key !in old(entries)
      ensures begun.Fresh? ==> PreparedFor(begun.record, input, id)
      ensures Contents() == if begun.Fresh?
                            then Save(old(Contents()), Store(old(entries)[input.key := begun.record], tasks), caller)
                            else old(Contents())
      ensures old(Valid()) && (forall k :: k in old(entries) ==> old(entries)[k].operationId != id) ==> Valid()
    {
      if input.key in entries {
        var existing := entries[input.key];
        if existing.payloadHash != input.payloadHash || existing.kind != input.kind { return Conflict; }
        return Reused(existing);
      }
      begun := Fresh(NewRecord(input, id));
      entries := entries[input.key := begun.record];
      queue := queue + [caller];
    }

    /** Finds the record by operation id and patches its status, whatever it was. */
    method Update(caller: Caller, operationId: Id, status: Status) returns (result: Result<Record, NotFound>)
      requires Indexed(entries)
      modifies this`entries, this`queue
      ensures Indexed(entries)
      ensures result.Err? <==> forall k :: k in old(entries) ==> old(entries)[k].operationId != operationId
      ensures result.Err? ==> Contents() == old(Contents())
      ensures forall k :: k in old(entries) && old(entries)[k].operationId == operationId ==>
        && result == Ok(old(entries)[k].(status := status))
        && Contents() == Save(old(Contents()), SetStatus(Store(old(entries), tasks), k, status), caller)
    {
      var rest := entries.Keys;
      while rest != {}
        invariant rest <= entries.Keys
        invariant forall k :: k in entries && k !in rest ==> entries[k].operationId != operationId
        decreases rest
      {
        var key :| key in rest;
        if entries[key].operationId == operationId {
          var updated := entries[key].(status := status);
          entries := entries[key := updated];
          queue := queue + [caller];
          return Ok(updated);
        }
        rest := rest - {key};
      }
      result := Err(NotFound);
    }

    method BeginTaskRecord(caller: Caller, key: string, payloadHash: string, ref: Id) returns (begun: TaskBegun)
      modifies this`tasks, this`queue
      ensures begun == BeginTask(old(tasks), key, payloadHash, ref)
      ensures begun.TaskConflict? <==> key in old(tasks) && old(tasks)[key].payloadHash != payloadHash
      ensures begun.TaskReused? ==> key in old(tasks) && begun.task == old(tasks)[key]
      ensures begun.TaskFresh? <==> key !in old(tasks)
      ensures begun.TaskFresh? ==>
        var t := begun.task; t.taskRef == ref && t.key == key && t.payloadHash == payloadHash && t.stage.TaskPrepared?
      ensures Contents() == if begun.TaskFresh?
                            then Save(old(Contents()), Store(entries, old(tasks)[key := begun.task]), caller)
                            else old(Contents())
      ensures old(Valid()) && (forall k :: k in old(tasks) ==> old(tasks)[k].taskRef != ref) ==> Valid()
    {
      if key in tasks {
        if tasks[key].payloadHash != payloadHash { return TaskConflict; }
        return TaskReused(tasks[key]);
      }
      begun := TaskFresh(Task(ref, key, payloadHash, TaskPrepared));
      tasks := tasks[key := begun.task];
      queue := queue + [caller];
    }

    method UpdateTask(caller: Caller, taskRef: Id, stage: Stage) returns (result: Result<Task, NotFound>)
      requires IndexedTasks(tasks)
      modifies this`tasks, this`queue
      ensures IndexedTasks(tasks)
      ensures result.Err? <==> forall k :: k in old(tasks) ==> old(tasks)[k].taskRef != taskRef
      ensures result.Err? ==> Contents() == old(Contents())
      ensures forall k :: k in old(tasks) && old(tasks)[k].taskRef == taskRef ==>
        && result == Ok(old(tasks)[k].(stage := stage))
        && Contents() == Save(old(Contents()), SetStage(Store(entries, old(tasks)), k, stage), caller)
    {
      var rest := tasks.Keys;
      while rest != {}
        invariant rest <= tasks.Keys
        invariant forall k :: k in tasks && k !in rest ==> tasks[k].taskRef != taskRef
        decreases rest
      {
        var key :| key in rest;
        if tasks[key].taskRef == taskRef {
          var updated := tasks[key].(stage := stage);
          tasks := tasks[key := updated];
          queue := queue + [caller];
          return Ok(updated);
        }
        rest := rest - {key};
      }
      result := Err(NotFound);
    }

    /** The next queued write takes its snapshot of memory. */
    method StartWrite()
      requires CanStart(Contents())
      modifies this`writing
      ensures Contents() == Started(old(Contents()))
    {
      writing := Some(Store(entries, tasks));
    }

    /** The running write renames its file over the journal, or fails. */
    method EndWrite(succeeds: bool)
      requires writing.Some? && queue != []
      modifies this`file, this`queue, this`writing
      ensures Contents() == if succeeds then Finished(old(Contents())) else Broken(old(Contents()))
    {
      if succeeds { file := writing.value; }
      queue, writing := queue[1..], None;
    }
  }
}
