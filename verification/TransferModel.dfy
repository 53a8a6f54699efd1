/** The transfer queue as a state machine over the atomic blocks of its coroutines.

    A coroutine runs without interruption from one suspension point to the next, and persisting the
    queue never suspends, so each function below is one uninterrupted block of `TransferManager`. */
module TransferModel {
  import opened Wrappers
  import opened LocalFiles

  type Id = nat
  type TaskId = nat
  type CallId = nat

  datatype Direction = Upload | Download

  datatype TransferState =
    | Queued | Preparing | Transferring | Verifying
    | Completed | Cancelled | Failed | Interrupted
  {
    predicate Final() { Completed? || Cancelled? || Failed? || Interrupted? }

    predicate Retryable() { Cancelled? || Failed? || Interrupted? }

    /** The states in which a record occupies one of the concurrency slots. */
    predicate Active() { Preparing? || Transferring? || Verifying? }
  }

  /** `local` is the destination of a download and the spool file of an upload; `remote` is the
      other end. `verified` is the "size-match" mark. */
  datatype Record = Record(
    direction: Direction, policy: DuplicatePolicy, remote: string, local: Option<LocalPath>,
    state: TransferState, size: Option<nat>, bytes: nat, verified: bool, retries: nat)

  /** Where the coroutine `_execute` of a task is suspended. */
  datatype Point =
    | Created
    | AwaitingPermit
    | CheckingDevice
    | ResolvingRemote
    | MakingDirectory
    | Pushing
    | CheckingRemote
    | ScanningMedia
    | StatingSource
    | StatingAgain(expected: nat)
    | Receiving(expected: nat, total: nat, received: nat)
    | Finished

  datatype Task = Task(record: Id, point: Point, cancelling: bool) {
    predicate Unfinished() { !point.Finished? }

    predicate HoldsPermit() { !point.Created? && !point.AwaitingPermit? && !point.Finished? }
  }

  /** A `cancel` call suspended until the task it cancelled has ended. */
  datatype Wait = Wait(record: Id, task: TaskId)

  /** `loop` is every task the event loop was given; `tasks` is the manager's own `_tasks`. */
  datatype State = State(
    concurrency: nat, maximum: nat,
    records: map<Id, Record>, tasks: map<Id, TaskId>, loop: map<TaskId, Task>,
    permits: nat, waits: map<CallId, Wait>, disk: Disk)

  /** What the suspended operation of a task answers with. */
  datatype Reply =
    | Run | Blocked
    | CancelThrown | Raised
    | DeviceReady
    | RemoteFree(path: string)
    | Progressed(done: nat, reported: nat)
    | Stat(exists_: bool, directory: bool, size: nat)
    | Received(data: Bytes)
    | Returned

  datatype Event =
    | Enqueue(id: Id, task: TaskId, record: Record)
    | Resume(task: TaskId, reply: Reply)
    | DoneCallback(task: TaskId)
    | CancelCall(call: CallId, id: Id)
    | CancelResume(call: CallId)
    | CancelSwallowed(task: TaskId)
    | Retry(id: Id, task: TaskId)
    | Environment(path: LocalPath, content: Option<Bytes>)
    | Close

  // ---------------------------------------------------------------- shared pieces

  function PartOf(path: LocalPath, id: Id): LocalPath
    requires path.Named?
  {
    Part(path.directory, path.name, id)
  }

  function SetRecord(s: State, id: Id, r: Record): State { s.(records := s.records[id := r]) }

  function SetPoint(s: State, t: TaskId, p: Point): State
    requires t in s.loop
  {
    s.(loop := s.loop[t := s.loop[t].(point := p)])
  }

  /** The task returns: it leaves the semaphore block if it was inside. */
  function Finish(s: State, t: TaskId): State
    requires t in s.loop
  {
    SetPoint(s, t, Finished).(permits := if s.loop[t].HoldsPermit() then s.permits + 1 else s.permits)
  }

  /** `_cleanup_partial`. */
  function CleanPartial(disk: Disk, id: Id, r: Record): Disk {
    if r.direction.Download? && r.local.Some? && r.local.value.Named? then disk - {PartOf(r.local.value, id)} else disk
  }

  /** `_mark_cancelled`. */
  function MarkCancelled(s: State, id: Id): State
    requires id in s.records
  {
    var r := s.records[id];
    SetRecord(s, id, r.(state := Cancelled)).(disk := CleanPartial(s.disk, id, r))
  }

  /** The `except Exception` branch of `_execute`. */
  function MarkFailed(s: State, id: Id): State
    requires id in s.records
  {
    var r := s.records[id];
    SetRecord(s, id, r.(state := Failed)).(disk := CleanPartial(s.disk, id, r))
  }

  /** `_schedule`. */
  function Schedule(s: State, id: Id, t: TaskId): State {
    s.(tasks := s.tasks[id := t], loop := s.loop[t := Task(id, Created, false)])
  }

  /** `total or record.size`. */
  function Reported(size: Option<nat>, total: nat): Option<nat> { if total != 0 then Some(total) else size }

  // ---------------------------------------------------------------- the blocks of _execute

  predicate TaskKnown(s: State, t: TaskId) { t in s.loop && s.loop[t].record in s.records }

  /** Entering the semaphore block. */
  function Prepare(s: State, t: TaskId): State
    requires TaskKnown(s, t) && s.permits > 0
  {
    var id := s.loop[t].record;
    SetPoint(SetRecord(s, id, s.records[id].(state := Preparing)), t, CheckingDevice).(permits := s.permits - 1)
  }

  function Fails(s: State, t: TaskId): State
    requires TaskKnown(s, t)
  {
    Finish(MarkFailed(s, s.loop[t].record), t)
  }

  /** The device is ready: an upload goes on to resolve its remote name, a download resolves its
      local name again, now that it owns a slot. */
  function DeviceIsReady(s: State, t: TaskId): State
    requires TaskKnown(s, t)
  {
    var id := s.loop[t].record;
    var r := s.records[id];
    if r.local.None? then Fails(s, t)
    else if r.direction.Upload? then SetPoint(s, t, ResolvingRemote)
    else if !r.local.value.Named? then Fails(s, t)
    else
      match Resolved(s.disk, r.local.value, r.policy)
      case None => Fails(s, t)
      case Some(path) => SetPoint(SetRecord(s, id, r.(local := Some(path))), t, StatingSource)
  }

  /** The remote file was stated after a push: equal sizes complete the upload. */
  function VerifyUpload(s: State, t: TaskId, present: bool, size: nat): State
    requires TaskKnown(s, t)
  {
    var id := s.loop[t].record;
    var r := s.records[id];
    if r.local.None? || r.local.value !in s.disk then Fails(s, t)
    else
      var expected := |s.disk[r.local.value]|;
      if !present || size != expected then Fails(s, t)
      else
        SetPoint(SetRecord(s, id, r.(state := Completed, bytes := expected, size := Some(expected), verified := true)),
                 t, ScanningMedia)
  }

  /** Housekeeping after an upload: the spool file goes, whatever the media scan said. */
  function FinishUpload(s: State, t: TaskId): State
    requires TaskKnown(s, t)
  {
    var id := s.loop[t].record;
    var r := s.records[id];
    Finish(SetRecord(s, id, r.(local := None)).(disk := if r.local.Some? then s.disk - {r.local.value} else s.disk), t)
  }

  function SourceStated(s: State, t: TaskId, regular: bool, size: nat): State
    requires TaskKnown(s, t)
  {
    var id := s.loop[t].record;
    if !regular then Fails(s, t)
    else SetPoint(SetRecord(s, id, s.records[id].(size := Some(size), state := Transferring)), t, StatingAgain(size))
  }

  /** The STAT inside `pull`: a regular file opens the part file. */
  function OpenPart(s: State, t: TaskId, expected: nat, regular: bool, total: nat): State
    requires TaskKnown(s, t)
  {
    var id := s.loop[t].record;
    var r := s.records[id];
    if !regular || r.local.None? || !r.local.value.Named? then Fails(s, t)
    else
      SetPoint(s, t, Receiving(expected, total, 0)).(disk := s.disk[PartOf(r.local.value, id) := []])
  }

  function ReceiveChunk(s: State, t: TaskId, p: Point, data: Bytes): State
    requires TaskKnown(s, t) && p.Receiving?
  {
    var id := s.loop[t].record;
    var r := s.records[id];
    if r.local.None? || !r.local.value.Named? || PartOf(r.local.value, id) !in s.disk then Fails(s, t)
    else
      var part := PartOf(r.local.value, id);
      var n := p.received + |data|;
      SetPoint(SetRecord(s, id, r.(bytes := n, size := Reported(r.size, p.total))), t, p.(received := n))
      .(disk := s.disk[part := s.disk[part] + data])
  }

  /** `pull` came back: verification, the atomic rename and COMPLETED are one block. */
  function FinishDownload(s: State, t: TaskId, p: Point): State
    requires TaskKnown(s, t) && p.Receiving?
  {
    var id := s.loop[t].record;
    var r := s.records[id];
    if r.local.None? || !r.local.value.Named? then Fails(s, t)
    else
      var final, part := r.local.value, PartOf(r.local.value, id);
      if p.received != p.total || part !in s.disk || |s.disk[part]| != p.expected then Fails(s, t)
      else
        Finish(SetRecord(s, id, r.(state := Completed, bytes := p.expected, verified := true))
               .(disk := s.disk[final := s.disk[part]] - {part}), t)
  }

  /** Which replies the suspended operation of a task can give. While a cancellation request stands, nothing
      but CancelledError resumes the task. */
  predicate Accepts(s: State, t: TaskId, reply: Reply) {
    && TaskKnown(s, t)
    && var task := s.loop[t];
    if task.cancelling then task.Unfinished() && reply.CancelThrown?
    else match task.point
      case Created => reply.Blocked? || (reply.Run? && s.permits > 0)
      case AwaitingPermit => reply.Run? && s.permits > 0
      case CheckingDevice => reply.DeviceReady? || reply.Raised?
      case ResolvingRemote => reply.RemoteFree? || reply.Raised?
      case MakingDirectory => reply.Returned? || reply.Raised?
      case Pushing => reply.Progressed? || reply.Returned? || reply.Raised?
      case CheckingRemote => reply.Stat? || reply.Raised?
      case ScanningMedia => reply.Returned? || reply.Raised?
      case StatingSource => reply.Stat? || reply.Raised?
      case StatingAgain(_) => reply.Stat? || reply.Raised?
      case Receiving(_, _, _) => reply.Received? || reply.Returned? || reply.Raised?
      case Finished => false
  }

  function ResumeTask(s: State, t: TaskId, reply: Reply): State
    requires Accepts(s, t, reply)
  {
    var task := s.loop[t];
    var id := task.record;
    var r := s.records[id];
    if reply.CancelThrown? then
      if task.point.Created? then Finish(s, t) else Finish(MarkCancelled(s, id), t)
    else if task.point.Created? then if reply.Run? then Prepare(s, t) else SetPoint(s, t, AwaitingPermit)
    else if task.point.AwaitingPermit? then Prepare(s, t)
    else if task.point.ScanningMedia? then FinishUpload(s, t)
    else if reply.Raised? then Fails(s, t)
    else if task.point.CheckingDevice? then DeviceIsReady(s, t)
    else if task.point.ResolvingRemote? then SetPoint(SetRecord(s, id, r.(remote := reply.path)), t, MakingDirectory)
    else if task.point.MakingDirectory? then SetPoint(SetRecord(s, id, r.(state := Transferring)), t, Pushing)
    else if task.point.Pushing? then
      if reply.Progressed? then SetRecord(s, id, r.(bytes := reply.done, size := Reported(r.size, reply.reported)))
      else SetPoint(SetRecord(s, id, r.(state := Verifying)), t, CheckingRemote)
    else if task.point.CheckingRemote? then VerifyUpload(s, t, reply.exists_, reply.size)
    else if task.point.StatingSource? then SourceStated(s, t, reply.exists_ && !reply.directory, reply.size)
    else if task.point.StatingAgain? then
      OpenPart(s, t, task.point.expected, reply.exists_ && !reply.directory, reply.size)
    else if reply.Received? then ReceiveChunk(s, t, task.point, reply.data)
    else FinishDownload(s, t, task.point)
  }

  // ---------------------------------------------------------------- the other entry points

  /** A record as `enqueue_upload` and `enqueue_download` build it. */
  predicate Fresh(r: Record) {
    && r.state == Queued && r.bytes == 0 && !r.verified && r.retries == 0 && r.local.Some?
    && (r.direction.Upload? ==> r.local.value.Spool? && r.size.Some?)
    && (r.direction.Download? ==> r.local.value.Named? && r.size.None?)
  }

  /** The records that count against the queue capacity. */
  function OpenIds(records: map<Id, Record>): set<Id> { set id | id in records && !records[id].state.Final() }

  /** `_check_queue_capacity`, then `_register_and_run`. */
  function EnqueueRecord(s: State, id: Id, t: TaskId, r: Record): State {
    if |OpenIds(s.records)| >= s.maximum then s else Schedule(SetRecord(s, id, r), id, t)
  }

  /** `_discard_task`: only the entry that still names the ended task goes. */
  function Discard(s: State, t: TaskId): State
    requires t in s.loop
  {
    var id := s.loop[t].record;
    if id in s.tasks && s.tasks[id] == t then s.(tasks := s.tasks - {id}) else s
  }

  function RequestCancel(s: State, t: TaskId): State
    requires t in s.loop
  {
    if s.loop[t].Unfinished() then s.(loop := s.loop[t := s.loop[t].(cancelling := true)]) else s
  }

  /** `cancel` up to its first suspension: a final record is left alone, a record with a task has
      the task cancelled and waits for it, and one without a task is marked at once. */
  function CancelBegins(s: State, call: CallId, id: Id): State {
    if id !in s.records || s.records[id].state.Final() then s
    else if id in s.tasks && s.tasks[id] in s.loop then
      RequestCancel(s, s.tasks[id]).(waits := s.waits[call := Wait(id, s.tasks[id])])
    else MarkCancelled(s, id)
  }

  /** `cancel` after the task ended. */
  function CancelEnds(s: State, call: CallId): State
    requires call in s.waits && s.waits[call].record in s.records
  {
    var id := s.waits[call].record;
    var s' := s.(waits := s.waits - {call});
    if s.records[id].state == Cancelled then s' else MarkCancelled(s', id)
  }

  predicate CanRetry(s: State, id: Id) {
    && id in s.records
    && var r := s.records[id];
    && r.state.Retryable()
    && (r.direction.Upload? ==> r.local.Some? && r.local.value in s.disk)
  }

  function RetryRecord(s: State, id: Id, t: TaskId): State {
    if !CanRetry(s, id) then s
    else
      var r := s.records[id];
      Schedule(SetRecord(s, id, r.(state := Queued, bytes := 0, verified := false, retries := r.retries + 1)), id, t)
  }

  /** Inside the semaphore block a task waits for the device through `asyncio.wait_for`. In Python 3.11 that
      returns the result, and forgets the request, if the awaited operation is done by the time CancelledError
      arrives: the task then goes on as if nobody had cancelled it. */
  predicate CanSwallow(s: State, t: TaskId) { t in s.loop && s.loop[t].cancelling && s.loop[t].HoldsPermit() }

  function SwallowCancel(s: State, t: TaskId): State
    requires t in s.loop
  {
    s.(loop := s.loop[t := s.loop[t].(cancelling := false)])
  }

  /** `close` up to its first suspension. */
  function CloseBegins(s: State): State {
    s.(loop := map t | t in s.loop ::
      if s.loop[t].record in s.tasks && s.tasks[s.loop[t].record] == t && s.loop[t].Unfinished()
      then s.loop[t].(cancelling := true) else s.loop[t])
  }

  /** When an event can happen at all: fresh ids come from `secrets`, a waiting cancel resumes once
      its task has ended, and other programs do not touch part and spool files. */
  predicate Enabled(s: State, e: Event) {
    match e
    case Enqueue(id, t, r) => id !in s.records && t !in s.loop && Fresh(r)
    case Resume(t, reply) => Accepts(s, t, reply)
    case DoneCallback(t) => t in s.loop && s.loop[t].point.Finished?
    case CancelCall(call, id) => call !in s.waits
    case CancelResume(call) =>
      && call in s.waits && s.waits[call].record in s.records
      && s.waits[call].task in s.loop && !s.loop[s.waits[call].task].Unfinished()
    case CancelSwallowed(t) => CanSwallow(s, t)
    case Retry(id, t) => t !in s.loop
    case Environment(path, _) => path.Named?
    case Close => true
  }

  function Initial(concurrency: nat, maximum: nat, disk: Disk): State {
    State(concurrency, maximum, map[], map[], map[], concurrency, map[], disk)
  }

  function Apply(s: State, e: Event): State
    requires Enabled(s, e)
  {
    match e
    case Enqueue(id, t, r) => EnqueueRecord(s, id, t, r)
    case Resume(t, reply) => ResumeTask(s, t, reply)
    case DoneCallback(t) => Discard(s, t)
    case CancelCall(call, id) => CancelBegins(s, call, id)
    case CancelResume(call) => CancelEnds(s, call)
    case CancelSwallowed(t) => SwallowCancel(s, t)
    case Retry(id, t) => RetryRecord(s, id, t)
    case Environment(path, content) =>
      s.(disk := if content.Some? then s.disk[path := content.value] else s.disk - {path})
    case Close => CloseBegins(s)
  }
}
