/** What every step of the transfer queue keeps, and what follows for whole runs. */
module TransferSafety {
  import opened Wrappers
  import opened LocalFiles
  import opened TransferModel

  // ---------------------------------------------------------------- the invariant, record by record

  /** The record state each suspension point goes with. */
  ghost predicate Matches(point: Point, id: Id, r: Record, disk: Disk) {
    match point
    case Created => r.state == Queued
    case AwaitingPermit => r.state == Queued
    case CheckingDevice => r.state == Preparing
    case ResolvingRemote => r.direction == Upload && r.state == Preparing
    case MakingDirectory => r.direction == Upload && r.state == Preparing
    case Pushing => r.direction == Upload && r.state == Transferring
    case CheckingRemote => r.direction == Upload && r.state == Verifying
    case ScanningMedia => r.direction == Upload && r.state == Completed
    case StatingSource => r.direction == Download && r.state == Preparing
    case StatingAgain(expected) => r.direction == Download && r.state == Transferring && r.size == Some(expected)
    case Receiving(expected, total, received) =>
      && r.direction == Download && r.state == Transferring
      && (r.size == Some(expected) || (total != 0 && r.size == Some(total)))
      && r.local.Some? && r.local.value.Named?
      && PartOf(r.local.value, id) in disk && |disk[PartOf(r.local.value, id)]| == received
    case Finished => true
  }

  ghost predicate RecordOk(r: Record) {
    && (r.direction.Download? ==> r.local.Some? && r.local.value.Named?)
    && (r.direction.Upload? && r.local.Some? ==> r.local.value.Spool?)
    && (r.state == Completed ==> r.verified && r.size == Some(r.bytes))
  }

  /** The entry of `_tasks` for a record names an unfinished task. */
  ghost predicate HasTask(s: State, id: Id) {
    id in s.tasks && s.tasks[id] in s.loop && s.loop[s.tasks[id]].Unfinished()
  }

  /** A cancel call on this record is about to resume: the task it waited for has ended. */
  ghost predicate AwaitsCancel(s: State, id: Id) {
    exists c :: c in s.waits && s.waits[c].record == id && s.waits[c].task in s.loop
      && !s.loop[s.waits[c].task].Unfinished()
  }

  ghost predicate WaitedFor(s: State, id: Id, t: TaskId) { exists c :: c in s.waits && s.waits[c] == Wait(id, t) }

  ghost predicate EntryOk(s: State, id: Id) {
    && (id in s.records ==> RecordOk(s.records[id]))
    && (id in s.tasks ==> id in s.records && s.tasks[id] in s.loop && s.loop[s.tasks[id]].record == id)
  }

  /** Every unfinished task of a record is the one `_tasks` names, at a point that goes with the record. */
  ghost predicate TasksOk(s: State, id: Id) {
    forall t :: t in s.loop && s.loop[t].record == id ==>
      && id in s.records
      && (s.loop[t].Unfinished() ==>
        && id in s.tasks && s.tasks[id] == t
        && Matches(s.loop[t].point, id, s.records[id], s.disk)
        && (s.loop[t].cancelling ==> !s.loop[t].point.ScanningMedia? && WaitedFor(s, id, t)))
  }

  ghost predicate Covered(s: State, id: Id) {
    id in s.records && !s.records[id].state.Final() ==> HasTask(s, id) || AwaitsCancel(s, id)
  }

  ghost predicate WaitsOk(s: State, id: Id) {
    forall c :: c in s.waits && s.waits[c].record == id ==>
      && id in s.records && s.waits[c].task in s.loop && s.loop[s.waits[c].task].record == id
      && (s.loop[s.waits[c].task].Unfinished()
          || (!HasTask(s, id) && (s.records[id].state.Final() || s.records[id].state == Queued)))
  }

  /** A part file exists only while its download is being received. */
  ghost predicate PartsOk(s: State, id: Id) {
    forall p: LocalPath :: p in s.disk && p.Part? && p.transfer == id ==>
      && id in s.records && id in s.tasks && s.tasks[id] in s.loop && s.loop[s.tasks[id]].point.Receiving?
      && s.records[id].local == Some(Named(p.directory, p.name))
  }

  ghost predicate InvAt(s: State, id: Id) {
    EntryOk(s, id) && TasksOk(s, id) && Covered(s, id) && WaitsOk(s, id) && PartsOk(s, id)
  }

  function Holders(loop: map<TaskId, Task>): set<TaskId> { set t | t in loop && loop[t].HoldsPermit() }

  ghost predicate PermitsOk(s: State) { s.permits + |Holders(s.loop)| == s.concurrency }

  ghost predicate Inv(s: State) {
    PermitsOk(s) && forall id :: InvAt(s, id)
  }

  /** What a caller must not do: retry a record while an earlier `cancel` of it has not returned, or
      close the service. */
  ghost predicate Orderly(s: State, e: Event) {
    && !e.Close?
    && (e.Retry? ==> forall c :: c in s.waits ==> s.waits[c].record != e.id)
  }

  // ---------------------------------------------------------------- one record at a time

  /** Only the record `id`, its tasks, its cancel calls and its part files changed. */
  ghost predicate Only(s: State, s': State, id: Id) {
    && s'.concurrency == s.concurrency && s'.maximum == s.maximum
    && (forall i :: i != id ==> (i in s.records <==> i in s'.records))
    && (forall i :: i != id && i in s.records && i in s'.records ==> s.records[i] == s'.records[i])
    && (forall i :: i != id ==> (i in s.tasks <==> i in s'.tasks))
    && (forall i :: i != id && i in s.tasks && i in s'.tasks ==> s.tasks[i] == s'.tasks[i])
    && (forall t :: t in s.loop ==> t in s'.loop && s'.loop[t].record == s.loop[t].record)
    && (forall t :: t in s'.loop && s'.loop[t].record != id ==> t in s.loop && s'.loop[t] == s.loop[t])
    && (forall c :: c in s.waits && s.waits[c].record != id ==> c in s'.waits && s'.waits[c] == s.waits[c])
    && (forall c :: c in s'.waits && s'.waits[c].record != id ==> c in s.waits && s'.waits[c] == s.waits[c])
    && (forall p: LocalPath :: p.Part? && p.transfer != id ==> (p in s.disk <==> p in s'.disk))
    && (forall p: LocalPath :: p.Part? && p.transfer != id && p in s.disk && p in s'.disk ==> s.disk[p] == s'.disk[p])
  }

  lemma OthersKeepTasks(s: State, s': State, id: Id, i: Id)
    requires Only(s, s', id) && i != id && EntryOk(s, i) && TasksOk(s, i)
    ensures EntryOk(s', i) && TasksOk(s', i)
  {
    forall t | t in s'.loop && s'.loop[t].record == i && s.loop[t].Unfinished() && s.loop[t].cancelling
      ensures WaitedFor(s', i, t)
    {
      var c :| c in s.waits && s.waits[c] == Wait(i, t);
      assert s'.waits[c] == Wait(i, t);
    }
  }

  lemma OthersKeepCover(s: State, s': State, id: Id, i: Id)
    requires Only(s, s', id) && i != id && EntryOk(s, i) && Covered(s, i) && WaitsOk(s, i)
    ensures Covered(s', i) && WaitsOk(s', i)
  {
    if i in s.records && !s.records[i].state.Final() && !HasTask(s, i) {
      var c :| c in s.waits && s.waits[c].record == i && s.waits[c].task in s.loop
        && !s.loop[s.waits[c].task].Unfinished();
      assert c in s'.waits;
    }
  }

  /** A step that touches one record keeps the invariant if it keeps it for that record. */
  lemma LocalStepKeeps(s: State, s': State, id: Id)
    requires Inv(s) && Only(s, s', id) && InvAt(s', id) && PermitsOk(s')
    ensures Inv(s')
  {
    forall i ensures InvAt(s', i) {
      if i != id {
        assert InvAt(s, i);
        OthersKeepTasks(s, s', id, i);
        OthersKeepCover(s, s', id, i);
      }
    }
  }

  lemma HoldersUpdate(loop: map<TaskId, Task>, t: TaskId, task: Task)
    ensures var before := if t in loop && loop[t].HoldsPermit() then 1 else 0;
            var after := if task.HoldsPermit() then 1 else 0;
            |Holders(loop[t := task])| == |Holders(loop)| - before + after
  {
    var before, after := Holders(loop), Holders(loop[t := task]);
    if task.HoldsPermit() { assert after == before + {t}; } else { assert after == before - {t}; }
  }

  lemma InitialInv(concurrency: nat, maximum: nat, disk: Disk)
    requires forall p: LocalPath :: p in disk ==> !p.Part?
    ensures Inv(Initial(concurrency, maximum, disk))
  {
    assert Holders(map[]) == {};
  }

  // ---------------------------------------------------------------- the blocks of a task

  /** `s'` is `s` after a block of the unfinished task `t`: only the task, its record, the permits and
      its own files changed, and the new point goes with the new record. */
  ghost predicate TaskStep(s: State, s': State, t: TaskId, task: Task, r: Record) {
    && t in s.loop && s.loop[t].Unfinished()
    && var id := s.loop[t].record;
    && task.record == id
    && s' == s.(loop := s.loop[t := task], records := s.records[id := r], permits := s'.permits, disk := s'.disk)
    && s'.permits + (if task.HoldsPermit() then 1 else 0) == s.permits + (if s.loop[t].HoldsPermit() then 1 else 0)
    && (forall p: LocalPath :: p.Part? && p.transfer != id ==> (p in s'.disk <==> p in s.disk))
    && (forall p: LocalPath :: p.Part? && p.transfer != id && p in s.disk && p in s'.disk ==> s'.disk[p] == s.disk[p])
    && RecordOk(r)
    && (if task.Unfinished() then !s.loop[t].cancelling && !task.cancelling && Matches(task.point, id, r, s'.disk)
        else if s.loop[t].cancelling then r.state == Cancelled || (r.state == Queued && s.loop[t].point.Created?)
        else r.state.Final())
    && (forall p: LocalPath :: p.Part? && p.transfer == id && p in s'.disk ==>
         task.point.Receiving? && r.local == Some(Named(p.directory, p.name)))
  }

  lemma TaskStepLocal(s: State, s': State, t: TaskId, task: Task, r: Record)
    requires TaskStep(s, s', t, task, r) && InvAt(s, s.loop[t].record)
    ensures InvAt(s', s.loop[t].record)
  {
    var id := s.loop[t].record;
    assert s.tasks[id] == t;
    if s.loop[t].cancelling {
      assert WaitedFor(s, id, t);
      var c :| c in s.waits && s.waits[c] == Wait(id, t);
      assert s'.waits[c] == Wait(id, t);
    }
    assert HasTask(s', id) <==> task.Unfinished();
  }

  lemma TaskStepKeeps(s: State, s': State, t: TaskId, task: Task, r: Record)
    requires Inv(s) && TaskStep(s, s', t, task, r)
    ensures Inv(s')
  {
    HoldersUpdate(s.loop, t, task);
    assert InvAt(s, s.loop[t].record);
    TaskStepLocal(s, s', t, task, r);
    LocalStepKeeps(s, s', s.loop[t].record);
  }

  /** `s'` is a block of `t`, whatever task and record it left behind. */
  ghost predicate IsTaskStep(s: State, s': State, t: TaskId) {
    && t in s.loop && t in s'.loop && s.loop[t].record in s'.records
    && TaskStep(s, s', t, s'.loop[t], s'.records[s.loop[t].record])
  }

  lemma FailureIsTaskStep(s: State, t: TaskId)
    requires TaskKnown(s, t) && s.loop[t].Unfinished() && !s.loop[t].cancelling && InvAt(s, s.loop[t].record)
    ensures IsTaskStep(s, Fails(s, t), t)
  {
    assert s.tasks[s.loop[t].record] == t;
  }

  lemma PermitIsTaskStep(s: State, t: TaskId, reply: Reply)
    requires Accepts(s, t, reply) && !reply.CancelThrown? && InvAt(s, s.loop[t].record)
    requires s.loop[t].point.Created? || s.loop[t].point.AwaitingPermit?
    ensures IsTaskStep(s, ResumeTask(s, t, reply), t)
  {
    assert s.tasks[s.loop[t].record] == t;
  }

  lemma DeviceReadyIsTaskStep(s: State, t: TaskId)
    requires TaskKnown(s, t) && s.loop[t].point.CheckingDevice? && !s.loop[t].cancelling && InvAt(s, s.loop[t].record)
    ensures IsTaskStep(s, DeviceIsReady(s, t), t)
  {
    assert s.tasks[s.loop[t].record] == t;
    FailureIsTaskStep(s, t);
    var r := s.records[s.loop[t].record];
    if r.direction.Download? { ResolvedIsNamed(s.disk, r.local.value, r.policy); }
  }

  lemma ResolvedIsNamed(disk: Disk, path: LocalPath, policy: DuplicatePolicy)
    requires path.Named?
    ensures Resolved(disk, path, policy).Some? ==> Resolved(disk, path, policy).value.Named?
  {
    RenameNeverReplaces(disk, path);
  }

  lemma VerifyIsTaskStep(s: State, t: TaskId, present: bool, size: nat)
    requires TaskKnown(s, t) && s.loop[t].point.CheckingRemote? && !s.loop[t].cancelling && InvAt(s, s.loop[t].record)
    ensures IsTaskStep(s, VerifyUpload(s, t, present, size), t)
  {
    assert s.tasks[s.loop[t].record] == t;
    FailureIsTaskStep(s, t);
  }

  lemma UploadIsTaskStep(s: State, t: TaskId, reply: Reply)
    requires Accepts(s, t, reply) && !reply.CancelThrown? && !reply.Raised? && InvAt(s, s.loop[t].record)
    requires s.loop[t].point.ResolvingRemote? || s.loop[t].point.MakingDirectory? || s.loop[t].point.Pushing?
    ensures IsTaskStep(s, ResumeTask(s, t, reply), t)
  {
    assert s.tasks[s.loop[t].record] == t;
  }

  lemma MediaIsTaskStep(s: State, t: TaskId)
    requires TaskKnown(s, t) && s.loop[t].point.ScanningMedia? && !s.loop[t].cancelling && InvAt(s, s.loop[t].record)
    ensures IsTaskStep(s, FinishUpload(s, t), t)
  {
    assert s.tasks[s.loop[t].record] == t;
  }

  lemma SourceStatIsTaskStep(s: State, t: TaskId, regular: bool, size: nat)
    requires TaskKnown(s, t) && s.loop[t].point.StatingSource? && !s.loop[t].cancelling && InvAt(s, s.loop[t].record)
    ensures IsTaskStep(s, SourceStated(s, t, regular, size), t)
  {
    assert s.tasks[s.loop[t].record] == t;
    FailureIsTaskStep(s, t);
  }

  lemma OpenPartIsTaskStep(s: State, t: TaskId, regular: bool, total: nat)
    requires TaskKnown(s, t) && s.loop[t].point.StatingAgain? && !s.loop[t].cancelling && InvAt(s, s.loop[t].record)
    ensures IsTaskStep(s, OpenPart(s, t, s.loop[t].point.expected, regular, total), t)
  {
    assert s.tasks[s.loop[t].record] == t;
    FailureIsTaskStep(s, t);
  }

  lemma ChunkIsTaskStep(s: State, t: TaskId, data: Bytes)
    requires TaskKnown(s, t) && s.loop[t].point.Receiving? && !s.loop[t].cancelling && InvAt(s, s.loop[t].record)
    ensures IsTaskStep(s, ReceiveChunk(s, t, s.loop[t].point, data), t)
  {
    assert s.tasks[s.loop[t].record] == t;
  }

  lemma DownloadEndIsTaskStep(s: State, t: TaskId)
    requires TaskKnown(s, t) && s.loop[t].point.Receiving? && !s.loop[t].cancelling && InvAt(s, s.loop[t].record)
    ensures IsTaskStep(s, FinishDownload(s, t, s.loop[t].point), t)
  {
    assert s.tasks[s.loop[t].record] == t;
    FailureIsTaskStep(s, t);
  }

  lemma ResumeIsTaskStep(s: State, t: TaskId, reply: Reply)
    requires Accepts(s, t, reply) && InvAt(s, s.loop[t].record)
    ensures IsTaskStep(s, ResumeTask(s, t, reply), t)
  {
    var point := s.loop[t].point;
    if reply.CancelThrown? { CancellationIsTaskStep(s, t); }
    else if point.Created? || point.AwaitingPermit? { PermitIsTaskStep(s, t, reply); }
    else if point.ScanningMedia? { MediaIsTaskStep(s, t); }
    else if reply.Raised? { FailureIsTaskStep(s, t); }
    else if point.CheckingDevice? { DeviceReadyIsTaskStep(s, t); }
    else if point.StatingSource? { SourceStatIsTaskStep(s, t, reply.exists_ && !reply.directory, reply.size); }
    else if point.StatingAgain? { OpenPartIsTaskStep(s, t, reply.exists_ && !reply.directory, reply.size); }
    else if point.Receiving? {
      if reply.Received? { ChunkIsTaskStep(s, t, reply.data); } else { DownloadEndIsTaskStep(s, t); }
    }
    else if point.CheckingRemote? { VerifyIsTaskStep(s, t, reply.exists_, reply.size); }
    else { UploadIsTaskStep(s, t, reply); }
  }

  lemma CancellationIsTaskStep(s: State, t: TaskId)
    requires Accepts(s, t, CancelThrown) && InvAt(s, s.loop[t].record)
    ensures IsTaskStep(s, ResumeTask(s, t, CancelThrown), t)
  {
    assert s.tasks[s.loop[t].record] == t;
  }

  lemma ResumeKeeps(s: State, t: TaskId, reply: Reply)
    requires Inv(s) && Accepts(s, t, reply)
    ensures Inv(ResumeTask(s, t, reply))
  {
    var s' := ResumeTask(s, t, reply);
    assert InvAt(s, s.loop[t].record);
    ResumeIsTaskStep(s, t, reply);
    TaskStepKeeps(s, s', t, s'.loop[t], s'.records[s.loop[t].record]);
  }

  // ---------------------------------------------------------------- the other steps

  lemma ScheduleLocal(s: State, id: Id, t: TaskId, r: Record)
    requires t !in s.loop && r.state == Queued && RecordOk(r) && InvAt(s, id)
    requires id in s.records ==> s.records[id].state.Retryable()
    requires forall c :: c in s.waits ==> s.waits[c].record != id
    ensures InvAt(Schedule(SetRecord(s, id, r), id, t), id)
  {
    assert HasTask(Schedule(SetRecord(s, id, r), id, t), id);
  }

  /** Scheduling a record that is queued afresh and that no task or cancel call still refers to. */
  lemma ScheduleKeeps(s: State, id: Id, t: TaskId, r: Record)
    requires Inv(s) && t !in s.loop && r.state == Queued && RecordOk(r)
    requires id in s.records ==> s.records[id].state.Retryable()
    requires forall c :: c in s.waits ==> s.waits[c].record != id
    ensures Inv(Schedule(SetRecord(s, id, r), id, t))
  {
    HoldersUpdate(s.loop, t, Task(id, Created, false));
    assert InvAt(s, id);
    ScheduleLocal(s, id, t, r);
    LocalStepKeeps(s, Schedule(SetRecord(s, id, r), id, t), id);
  }

  /** `_mark_cancelled` on an open record whose task has ended. */
  lemma MarkKeeps(s: State, id: Id)
    requires Inv(s) && id in s.records && !HasTask(s, id)
    ensures Inv(MarkCancelled(s, id))
  {
    assert InvAt(s, id);
    LocalStepKeeps(s, MarkCancelled(s, id), id);
  }

  lemma CancelRequestLocal(s: State, call: CallId, id: Id)
    requires InvAt(s, id) && call !in s.waits && id in s.tasks && !s.records[id].state.Final()
    ensures InvAt(CancelBegins(s, call, id), id)
  {
    var s' := CancelBegins(s, call, id);
    var t := s.tasks[id];
    assert s'.waits[call] == Wait(id, t);
    assert HasTask(s, id) <==> HasTask(s', id);
    forall u | u in s'.loop && s'.loop[u].record == id && s'.loop[u].Unfinished() && s'.loop[u].cancelling
      ensures WaitedFor(s', id, u)
    {
      assert u == t;
    }
  }

  lemma CancelBeginsKeeps(s: State, call: CallId, id: Id)
    requires Inv(s) && call !in s.waits
    ensures Inv(CancelBegins(s, call, id))
  {
    assert InvAt(s, id);
    if id in s.records && !s.records[id].state.Final() {
      if id in s.tasks {
        var s' := CancelBegins(s, call, id);
        HoldersUpdate(s.loop, s.tasks[id], s'.loop[s.tasks[id]]);
        CancelRequestLocal(s, call, id);
        LocalStepKeeps(s, s', id);
      } else {
        MarkKeeps(s, id);
      }
    }
  }

  lemma ForgetWaitKeeps(s: State, call: CallId)
    requires Inv(s) && call in s.waits
    requires s.waits[call].record in s.records && s.records[s.waits[call].record].state == Cancelled
    requires s.waits[call].task in s.loop && !s.loop[s.waits[call].task].Unfinished()
    ensures Inv(s.(waits := s.waits - {call}))
  {
    var id := s.waits[call].record;
    var s' := s.(waits := s.waits - {call});
    assert InvAt(s, id);
    LocalStepKeeps(s, s', id);
  }

  lemma CancelEndsKeeps(s: State, call: CallId)
    requires Inv(s) && Enabled(s, CancelResume(call))
    ensures Inv(CancelEnds(s, call))
  {
    var id := s.waits[call].record;
    assert InvAt(s, id);
    var marked := if s.records[id].state == Cancelled then s else MarkCancelled(s, id);
    if s.records[id].state != Cancelled { MarkKeeps(s, id); }
    assert CancelEnds(s, call) == marked.(waits := marked.waits - {call});
    ForgetWaitKeeps(marked, call);
  }

  lemma SwallowKeeps(s: State, t: TaskId)
    requires Inv(s) && CanSwallow(s, t)
    ensures Inv(SwallowCancel(s, t))
  {
    var id := s.loop[t].record;
    HoldersUpdate(s.loop, t, SwallowCancel(s, t).loop[t]);
    assert InvAt(s, id);
    assert HasTask(s, id) <==> HasTask(SwallowCancel(s, t), id);
    LocalStepKeeps(s, SwallowCancel(s, t), id);
  }

  lemma DiscardKeeps(s: State, t: TaskId)
    requires Inv(s) && t in s.loop && s.loop[t].point.Finished?
    ensures Inv(Discard(s, t))
  {
    var id := s.loop[t].record;
    assert InvAt(s, id);
    assert HasTask(s, id) ==> HasTask(Discard(s, t), id);
    LocalStepKeeps(s, Discard(s, t), id);
  }

  lemma EnvironmentKeeps(s: State, disk: Disk)
    requires Inv(s)
    requires forall p: LocalPath :: p.Part? ==> (p in s.disk <==> p in disk)
    requires forall p: LocalPath :: p.Part? && p in s.disk && p in disk ==> s.disk[p] == disk[p]
    ensures Inv(s.(disk := disk))
  {
    var s' := s.(disk := disk);
    forall i: Id ensures InvAt(s', i) {
      assert InvAt(s, i);
      OthersKeepTasks(s, s', i + 1, i);
      OthersKeepCover(s, s', i + 1, i);
    }
  }

  lemma StepKeeps(s: State, e: Event)
    requires Inv(s) && Enabled(s, e) && Orderly(s, e)
    ensures Inv(Apply(s, e))
  {
    match e
    case Enqueue(id, t, r) => EnqueueKeeps(s, id, t, r);
    case Resume(t, reply) => ResumeKeeps(s, t, reply);
    case DoneCallback(t) => DiscardKeeps(s, t);
    case CancelCall(call, id) => CancelBeginsKeeps(s, call, id);
    case CancelResume(call) => CancelEndsKeeps(s, call);
    case CancelSwallowed(t) => SwallowKeeps(s, t);
    case Retry(id, t) => RetryKeeps(s, id, t);
    case Environment(path, content) =>
      EnvironmentKeeps(s, Apply(s, e).disk);
  }

  lemma EnqueueKeeps(s: State, id: Id, t: TaskId, r: Record)
    requires Inv(s) && id !in s.records && t !in s.loop && Fresh(r)
    ensures Inv(EnqueueRecord(s, id, t, r))
  {
    assert InvAt(s, id);
    if |OpenIds(s.records)| < s.maximum { ScheduleKeeps(s, id, t, r); }
  }

  lemma RetryKeeps(s: State, id: Id, t: TaskId)
    requires Inv(s) && t !in s.loop
    requires forall c :: c in s.waits ==> s.waits[c].record != id
    ensures Inv(RetryRecord(s, id, t))
  {
    assert InvAt(s, id);
    if CanRetry(s, id) {
      var r := s.records[id];
      ScheduleKeeps(s, id, t, r.(state := Queued, bytes := 0, verified := false, retries := r.retries + 1));
    }
  }
}
