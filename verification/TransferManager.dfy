/** The transfer manager as an object: every method is one uninterrupted block of the coroutine it is
    named after, and moves the object's state exactly as the state machine says. */
module TransferManager {
  import opened Wrappers
  import opened LocalFiles
  import opened TransferModel
  import opened TransferSafety
  import opened TransferTheorems

  datatype Refusal = QueueFull | FileExists | NotFound | NotCancellable | NotRetryable | SpoolMissing

  datatype Cancellation = AlreadyCancelled | Waiting | Marked

  function NewUpload(remote: string, spool: LocalPath, size: nat, policy: DuplicatePolicy): Record {
    Record(Upload, policy, remote, Some(spool), Queued, Some(size), 0, false, 0)
  }

  function NewDownload(remote: string, destination: LocalPath, policy: DuplicatePolicy): Record {
    Record(Download, policy, remote, Some(destination), Queued, None, 0, false, 0)
  }

  ghost function OpenAmong(records: map<Id, Record>, ids: set<Id>): set<Id>
    requires ids <= records.Keys
  {
    set id | id in ids && !records[id].state.Final()
  }

  lemma OneMore(records: map<Id, Record>, ids: set<Id>, id: Id)
    requires ids <= records.Keys && id in records && id !in ids
    ensures |OpenAmong(records, ids + {id})| == |OpenAmong(records, ids)| + (if records[id].state.Final() then 0 else 1)
  {
    var after := OpenAmong(records, ids) + (if records[id].state.Final() then {} else {id});
    assert OpenAmong(records, ids + {id}) == after;
  }

  /** The invariant across one block, whether or not it held before. */
  lemma BlockKeeps(s: State, e: Event)
    requires Enabled(s, e) && Orderly(s, e)
    ensures Inv(s) ==> Inv(Apply(s, e))
  {
    if Inv(s) { StepKeeps(s, e); }
  }

  class Manager {
    const concurrency: nat
    const maximum: nat
    var records: map<Id, Record>
    var tasks: map<Id, TaskId>
    var loop: map<TaskId, Task>
    var permits: nat
    var waits: map<CallId, Wait>
    var disk: Disk

    ghost function View(): State
      reads this
    {
      State(concurrency, maximum, records, tasks, loop, permits, waits, disk)
    }

    /** The invariant of the queue, on the object. */
    ghost predicate Valid()
      reads this
    {
      Inv(View())
    }

    /** What it gives to those who hold the object: no more records are under way than there are slots, */
    lemma UnderWayAreBounded()
      requires Valid()
      ensures |ActiveIds(View())| <= concurrency
    {
      ConcurrencyIsBounded(View());
    }

    /** a completed record is checked against its size, */
    lemma CompletedIsVerified(id: Id)
      requires Valid() && id in records && records[id].state == Completed
      ensures records[id].verified && records[id].size == Some(records[id].bytes)
    {
      CompletedMeansVerified(View(), id);
    }

    /** and a record under way has a task that a caller of `cancel` can reach. */
    lemma UnderWayIsReachable(id: Id)
      requires Valid() && id in records && records[id].state.Active()
      ensures id in tasks && tasks[id] in loop && loop[tasks[id]].Unfinished() && loop[tasks[id]].record == id
    {
      assert InvAt(View(), id);
    }

    constructor (concurrency: nat, maximum: nat, disk: Disk)
      ensures View() == Initial(concurrency, maximum, disk)
      ensures (forall p: LocalPath :: p in disk ==> !p.Part?) ==> Valid()
    {
      this.concurrency, this.maximum, this.disk := concurrency, maximum, disk;
      records, tasks, loop, waits := map[], map[], map[], map[];
      permits := concurrency;
      new;
      if forall p: LocalPath :: p in disk ==> !p.Part? { InitialInv(concurrency, maximum, disk); }
    }

    /** `_check_queue_capacity` counts the records that are not final. */
    method CheckQueueCapacity() returns (full: bool)
      ensures full <==> |OpenIds(records)| >= maximum
    {
      var active, rest := 0, records.Keys;
      ghost var seen: set<Id> := {};
      while rest != {}
        invariant rest + seen == records.Keys && rest !! seen
        invariant active == |OpenAmong(records, seen)|
        decreases |rest|
      {
        var id :| id in rest;
        OneMore(records, seen, id);
        if !records[id].state.Final() { active := active + 1; }
        rest, seen := rest - {id}, seen + {id};
      }
      assert OpenAmong(records, seen) == OpenIds(records);
      return active >= maximum;
    }

    method Schedule(id: Id, t: TaskId)
      modifies this
      ensures View() == TransferModel.Schedule(old(View()), id, t)
    {
      loop := loop[t := Task(id, Created, false)];
      tasks := tasks[id := t];
    }

    method EnqueueUpload(id: Id, t: TaskId, remote: string, spool: LocalPath, size: nat, policy: DuplicatePolicy)
      returns (r: Result<Id, Refusal>)
      requires id !in records && t !in loop && spool.Spool?
      modifies this
      ensures View() == EnqueueRecord(old(View()), id, t, NewUpload(remote, spool, size, policy))
      ensures r == if |OpenIds(old(records))| >= maximum then Err(QueueFull) else Ok(id)
      ensures old(Valid()) ==> Valid()
    {
      BlockKeeps(View(), Enqueue(id, t, NewUpload(remote, spool, size, policy)));
      var full := CheckQueueCapacity();
      if full { return Err(QueueFull); }
      records := records[id := NewUpload(remote, spool, size, policy)];
      Schedule(id, t);
      return Ok(id);
    }

    method EnqueueDownload(id: Id, t: TaskId, remote: string, target: LocalPath, policy: DuplicatePolicy)
      returns (r: Result<Id, Refusal>)
      requires id !in records && t !in loop && target.Named?
      modifies this
      ensures var destination := Resolved(old(disk), target, policy);
              if |OpenIds(old(records))| >= maximum then r == Err(QueueFull) && View() == old(View())
              else if destination.None? then r == Err(FileExists) && View() == old(View())
              else r == Ok(id)
                   && View() == EnqueueRecord(old(View()), id, t, NewDownload(remote, destination.value, policy))
      ensures old(Valid()) ==> Valid()
    {
      var full := CheckQueueCapacity();
      if full { return Err(QueueFull); }
      var destination := ResolveDuplicate(disk, target, policy);
      if destination.None? { return Err(FileExists); }
      ResolvedIsNamed(disk, target, policy);
      BlockKeeps(View(), Enqueue(id, t, NewDownload(remote, destination.value, policy)));
      records := records[id := NewDownload(remote, destination.value, policy)];
      Schedule(id, t);
      return Ok(id);
    }

    method CleanupPartial(id: Id)
      requires id in records
      modifies this`disk
      ensures disk == CleanPartial(old(disk), id, records[id])
    {
      var r := records[id];
      if r.direction.Upload? || r.local.None? || !r.local.value.Named? { return; }
      disk := disk - {PartOf(r.local.value, id)};
    }

    method MarkCancelled(id: Id)
      requires id in records
      modifies this
      ensures View() == TransferModel.MarkCancelled(old(View()), id)
    {
      records := records[id := records[id].(state := Cancelled)];
      CleanupPartial(id);
    }

    /** Leaving the semaphore block and returning. */
    method Leave(t: TaskId)
      requires t in loop
      modifies this
      ensures View() == Finish(old(View()), t)
    {
      if loop[t].HoldsPermit() { permits := permits + 1; }
      loop := loop[t := loop[t].(point := Finished)];
    }

    method SuspendAt(t: TaskId, point: Point)
      requires t in loop
      modifies this
      ensures View() == SetPoint(old(View()), t, point)
    {
      loop := loop[t := loop[t].(point := point)];
    }

    method Fail(t: TaskId)
      requires TaskKnown(View(), t)
      modifies this
      ensures View() == Fails(old(View()), t)
    {
      var id := loop[t].record;
      records := records[id := records[id].(state := Failed)];
      CleanupPartial(id);
      Leave(t);
    }

    /** The task's first step, or the semaphore letting it in. */
    method EnterSemaphore(t: TaskId, admitted: bool)
      requires Accepts(View(), t, if admitted then Run else Blocked)
      modifies this
      ensures View() == ResumeTask(old(View()), t, if admitted then Run else Blocked)
      ensures old(Valid()) ==> Valid()
    {
      BlockKeeps(View(), Resume(t, if admitted then Run else Blocked));
      if !admitted { SuspendAt(t, AwaitingPermit); return; }
      permits := permits - 1;
      var id := loop[t].record;
      records := records[id := records[id].(state := Preparing)];
      SuspendAt(t, CheckingDevice);
    }

    /** The awaited operation raised CancelledError. */
    method TaskCancelled(t: TaskId)
      requires Accepts(View(), t, CancelThrown)
      modifies this
      ensures View() == ResumeTask(old(View()), t, CancelThrown)
      ensures old(Valid()) ==> Valid()
    {
      BlockKeeps(View(), Resume(t, CancelThrown));
      if !loop[t].point.Created? { MarkCancelled(loop[t].record); }
      Leave(t);
    }

    /** The awaited operation raised another exception. */
    method TaskRaised(t: TaskId)
      requires Accepts(View(), t, Raised)
      modifies this
      ensures View() == ResumeTask(old(View()), t, Raised)
      ensures old(Valid()) ==> Valid()
    {
      BlockKeeps(View(), Resume(t, Raised));
      if loop[t].point.ScanningMedia? { RemoveSpool(t); } else { Fail(t); }
    }

    method DeviceReady(t: TaskId)
      requires Accepts(View(), t, TransferModel.DeviceReady)
      modifies this
      ensures View() == ResumeTask(old(View()), t, TransferModel.DeviceReady)
      ensures old(Valid()) ==> Valid()
    {
      BlockKeeps(View(), Resume(t, TransferModel.DeviceReady));
      var id := loop[t].record;
      var r := records[id];
      if r.local.None? { Fail(t); return; }
      if r.direction.Upload? { SuspendAt(t, ResolvingRemote); return; }
      if !r.local.value.Named? { Fail(t); return; }
      var destination := ResolveDuplicate(disk, r.local.value, r.policy);
      if destination.None? { Fail(t); return; }
      records := records[id := r.(local := destination)];
      SuspendAt(t, StatingSource);
    }

    // -------------------------------------------------------------- _run_upload

    method RemoteResolved(t: TaskId, path: string)
      requires Accepts(View(), t, RemoteFree(path))
      modifies this
      ensures View() == ResumeTask(old(View()), t, RemoteFree(path))
      ensures old(Valid()) ==> Valid()
    {
      BlockKeeps(View(), Resume(t, RemoteFree(path)));
      var id := loop[t].record;
      records := records[id := records[id].(remote := path)];
      SuspendAt(t, MakingDirectory);
    }

    method DirectoryMade(t: TaskId)
      requires Accepts(View(), t, Returned) && loop[t].point.MakingDirectory?
      modifies this
      ensures View() == ResumeTask(old(View()), t, Returned)
      ensures old(Valid()) ==> Valid()
    {
      BlockKeeps(View(), Resume(t, Returned));
      var id := loop[t].record;
      records := records[id := records[id].(state := Transferring)];
      SuspendAt(t, Pushing);
    }

    method PushProgress(t: TaskId, done: nat, total: nat)
      requires Accepts(View(), t, Progressed(done, total))
      modifies this
      ensures View() == ResumeTask(old(View()), t, Progressed(done, total))
      ensures old(Valid()) ==> Valid()
    {
      BlockKeeps(View(), Resume(t, Progressed(done, total)));
      var id := loop[t].record;
      records := records[id := records[id].(bytes := done)];
      if total != 0 { records := records[id := records[id].(size := Some(total))]; }
    }

    method Pushed(t: TaskId)
      requires Accepts(View(), t, Returned) && loop[t].point.Pushing?
      modifies this
      ensures View() == ResumeTask(old(View()), t, Returned)
      ensures old(Valid()) ==> Valid()
    {
      BlockKeeps(View(), Resume(t, Returned));
      var id := loop[t].record;
      records := records[id := records[id].(state := Verifying)];
      SuspendAt(t, CheckingRemote);
    }

    method UploadStated(t: TaskId, present: bool, directory: bool, size: nat)
      requires Accepts(View(), t, Stat(present, directory, size)) && loop[t].point.CheckingRemote?
      modifies this
      ensures View() == ResumeTask(old(View()), t, Stat(present, directory, size))
      ensures old(Valid()) ==> Valid()
    {
      BlockKeeps(View(), Resume(t, Stat(present, directory, size)));
      var id := loop[t].record;
      var r := records[id];
      if r.local.None? || r.local.value !in disk { Fail(t); return; }
      var expected := |disk[r.local.value]|;
      if !present || size != expected { Fail(t); return; }
      records := records[id := r.(bytes := expected, size := Some(expected), verified := true)];
      Complete(id);
      SuspendAt(t, ScanningMedia);
    }

    method Complete(id: Id)
      requires id in records
      modifies this
      ensures View() == SetRecord(old(View()), id, old(records)[id].(state := Completed))
    {
      records := records[id := records[id].(state := Completed)];
    }

    method RemoveSpool(t: TaskId)
      requires TaskKnown(View(), t)
      modifies this
      ensures View() == FinishUpload(old(View()), t)
    {
      var id := loop[t].record;
      if records[id].local.Some? { disk := disk - {records[id].local.value}; }
      records := records[id := records[id].(local := None)];
      Leave(t);
    }

    method MediaScanned(t: TaskId)
      requires Accepts(View(), t, Returned) && loop[t].point.ScanningMedia?
      modifies this
      ensures View() == ResumeTask(old(View()), t, Returned)
      ensures old(Valid()) ==> Valid()
    {
      BlockKeeps(View(), Resume(t, Returned));
      RemoveSpool(t);
    }

    // -------------------------------------------------------------- _run_download

    method SourceStated(t: TaskId, present: bool, directory: bool, size: nat)
      requires Accepts(View(), t, Stat(present, directory, size)) && loop[t].point.StatingSource?
      modifies this
      ensures View() == ResumeTask(old(View()), t, Stat(present, directory, size))
      ensures old(Valid()) ==> Valid()
    {
      BlockKeeps(View(), Resume(t, Stat(present, directory, size)));
      if !present || directory { Fail(t); return; }
      var id := loop[t].record;
      records := records[id := records[id].(size := Some(size))];
      records := records[id := records[id].(state := Transferring)];
      SuspendAt(t, StatingAgain(size));
    }

    method PartOpened(t: TaskId, present: bool, directory: bool, size: nat)
      requires Accepts(View(), t, Stat(present, directory, size)) && loop[t].point.StatingAgain?
      modifies this
      ensures View() == ResumeTask(old(View()), t, Stat(present, directory, size))
      ensures old(Valid()) ==> Valid()
    {
      BlockKeeps(View(), Resume(t, Stat(present, directory, size)));
      var id := loop[t].record;
      var r := records[id];
      if !present || directory || r.local.None? || !r.local.value.Named? { Fail(t); return; }
      disk := disk[PartOf(r.local.value, id) := []];
      SuspendAt(t, Receiving(loop[t].point.expected, size, 0));
    }

    method ChunkReceived(t: TaskId, data: Bytes)
      requires Accepts(View(), t, Received(data))
      modifies this
      ensures View() == ResumeTask(old(View()), t, Received(data))
      ensures old(Valid()) ==> Valid()
    {
      BlockKeeps(View(), Resume(t, Received(data)));
      var id := loop[t].record;
      var r, point := records[id], loop[t].point;
      if r.local.None? || !r.local.value.Named? || PartOf(r.local.value, id) !in disk { Fail(t); return; }
      var partial := PartOf(r.local.value, id);
      disk := disk[partial := disk[partial] + data];
      var transferred := point.received + |data|;
      records := records[id := r.(bytes := transferred, size := Reported(r.size, point.total))];
      SuspendAt(t, point.(received := transferred));
    }

    /** `pull` returned: verify, replace, complete, with no suspension in between. */
    method PullReturned(t: TaskId)
      requires Accepts(View(), t, Returned) && loop[t].point.Receiving?
      modifies this
      ensures View() == ResumeTask(old(View()), t, Returned)
      ensures old(Valid()) ==> Valid()
    {
      BlockKeeps(View(), Resume(t, Returned));
      var id := loop[t].record;
      var r, point := records[id], loop[t].point;
      if r.local.None? || !r.local.value.Named? || point.received != point.total { Fail(t); return; }
      var final, partial := r.local.value, PartOf(r.local.value, id);
      VerifyDownload(t, partial, final, point.expected);
    }

    method VerifyDownload(t: TaskId, partial: LocalPath, final: LocalPath, expected: nat)
      requires TaskKnown(View(), t)
      modifies this
      ensures var id := old(loop)[t].record;
              View() == if partial !in old(disk) || |old(disk)[partial]| != expected then Fails(old(View()), t)
                        else Finish(SetRecord(old(View()), id,
                                              old(records)[id].(state := Completed, bytes := expected,
                                                                verified := true))
                                    .(disk := old(disk)[final := old(disk)[partial]] - {partial}), t)
    {
      var id := loop[t].record;
      records := records[id := records[id].(state := Verifying)];
      if partial !in disk || |disk[partial]| != expected { Fail(t); } else { Deliver(t, partial, final, expected); }
    }

    /** The atomic rename and what follows it. */
    method Deliver(t: TaskId, partial: LocalPath, final: LocalPath, expected: nat)
      requires TaskKnown(View(), t) && partial in disk
      modifies this
      ensures var id := old(loop)[t].record;
              View() == Finish(SetRecord(old(View()), id,
                                         old(records)[id].(state := Completed, bytes := expected, verified := true))
                               .(disk := old(disk)[final := old(disk)[partial]] - {partial}), t)
    {
      disk := disk[final := disk[partial]];
      disk := disk - {partial};
      var id := loop[t].record;
      records := records[id := records[id].(bytes := expected, verified := true)];
      Complete(id);
      Leave(t);
    }

    // -------------------------------------------------------------- callers

    method DiscardTask(t: TaskId)
      requires t in loop
      modifies this
      ensures View() == Discard(old(View()), t)
      ensures old(Valid() && loop[t].point.Finished?) ==> Valid()
    {
      if loop[t].point.Finished? { BlockKeeps(View(), DoneCallback(t)); }
      var id := loop[t].record;
      if id in tasks && tasks[id] == t { tasks := tasks - {id}; }
    }

    method Cancel(call: CallId, id: Id) returns (r: Result<Cancellation, Refusal>)
      requires call !in waits
      modifies this
      ensures View() == CancelBegins(old(View()), call, id)
      ensures r == if id !in old(records) then Err(NotFound)
                   else if old(records)[id].state == Cancelled then Ok(AlreadyCancelled)
                   else if old(records)[id].state.Final() then Err(NotCancellable)
                   else if id in old(tasks) && old(tasks)[id] in old(loop) then Ok(Waiting) else Ok(Marked)
      ensures old(Valid()) ==> Valid()
    {
      BlockKeeps(View(), CancelCall(call, id));
      if id !in records { return Err(NotFound); }
      if records[id].state.Final() {
        return if records[id].state == Cancelled then Ok(AlreadyCancelled) else Err(NotCancellable);
      }
      if id in tasks && tasks[id] in loop {
        var t := tasks[id];
        if loop[t].Unfinished() { loop := loop[t := loop[t].(cancelling := true)]; }
        waits := waits[call := Wait(id, t)];
        return Ok(Waiting);
      }
      MarkCancelled(id);
      return Ok(Marked);
    }

    /** `asyncio.wait_for` in the device client returned its result instead of raising CancelledError. */
    method CancelSwallowed(t: TaskId)
      requires CanSwallow(View(), t)
      modifies this
      ensures View() == SwallowCancel(old(View()), t)
      ensures old(Valid()) ==> Valid()
    {
      BlockKeeps(View(), TransferModel.CancelSwallowed(t));
      loop := loop[t := loop[t].(cancelling := false)];
    }

    method CancelResumed(call: CallId)
      requires call in waits && waits[call].record in records
      modifies this
      ensures View() == CancelEnds(old(View()), call)
      ensures old(Valid() && Enabled(View(), TransferModel.CancelResume(call))) ==> Valid()
    {
      if waits[call].task in loop && !loop[waits[call].task].Unfinished() {
        BlockKeeps(View(), TransferModel.CancelResume(call));
      }
      var id := waits[call].record;
      waits := waits - {call};
      if records[id].state != Cancelled { MarkCancelled(id); }
    }

    method Retry(id: Id, t: TaskId) returns (r: Result<Id, Refusal>)
      requires t !in loop
      modifies this
      ensures View() == RetryRecord(old(View()), id, t)
      ensures r.Ok? <==> CanRetry(old(View()), id)
      ensures old(Valid() && forall c :: c in waits ==> waits[c].record != id) ==> Valid()
    {
      if forall c :: c in waits ==> waits[c].record != id { BlockKeeps(View(), TransferModel.Retry(id, t)); }
      if id !in records { return Err(NotFound); }
      var record := records[id];
      if !record.state.Retryable() { return Err(NotRetryable); }
      if record.direction.Upload? && (record.local.None? || record.local.value !in disk) { return Err(SpoolMissing); }
      records := records[id := record.(state := Queued, bytes := 0, verified := false, retries := record.retries + 1)];
      Schedule(id, t);
      return Ok(id);
    }
  }
}
