/** With one transfer at a time and the Rename policy no download is ever lost. */
module TransferNoLoss {
  import opened Wrappers
  import opened LocalFiles
  import opened TransferModel
  import opened TransferSafety
  import opened TransferTheorems

  ghost predicate Fetching(p: Point) { p.StatingSource? || p.StatingAgain? || p.Receiving? }

  ghost predicate Delivered(r: Record) { r.direction == Download && r.state == Completed }

  ghost predicate NamedIn(local: Option<LocalPath>, disk: Disk) {
    local.Some? && local.value.Named? && local.value in disk
  }

  ghost predicate NamedNotIn(local: Option<LocalPath>, disk: Disk) {
    local.Some? && local.value.Named? && local.value !in disk
  }

  /** Completed downloads have their file, each its own, and the destination that a running download
      has resolved is still free. */
  ghost predicate Kept(s: State) {
    && (forall id :: id in s.records ==> s.records[id].policy == Rename)
    && (forall id :: id in s.records && Delivered(s.records[id]) ==> NamedIn(s.records[id].local, s.disk))
    && (forall i, j ::
          i in s.records && j in s.records && i != j && Delivered(s.records[i]) && Delivered(s.records[j]) ==>
          s.records[i].local != s.records[j].local)
    && (forall t :: t in s.loop && Fetching(s.loop[t].point) && s.loop[t].record in s.records ==>
         NamedNotIn(s.records[s.loop[t].record].local, s.disk))
  }

  /** Other programs leave alone the files of completed downloads and the names of running ones. */
  ghost predicate Undisturbed(s: State, e: Event) {
    && (e.Enqueue? ==> e.record.policy == Rename)
    && (e.Environment? ==> forall id :: id in s.records && s.records[id].local == Some(e.path) ==>
          !s.records[id].state.Completed? && !s.records[id].state.Active())
  }

  lemma SoleHolder(s: State, t: TaskId, u: TaskId)
    requires PermitsOk(s) && s.concurrency == 1
    requires t in s.loop && u in s.loop && s.loop[t].HoldsPermit() && s.loop[u].HoldsPermit()
    ensures t == u
  {
    if t != u { SubsetIsSmaller({t, u}, Holders(s.loop)); }
  }

  /** A block that completes no download neither delivers nor withdraws one, and a destination it
      fixes is free. */
  ghost predicate QuietChange(r: Record, p: Point, r': Record, p': Point, disk: Disk) {
    && (r.policy == Rename ==> r'.policy == Rename)
    && (Delivered(r') ==> Delivered(r) && r'.local == r.local)
    && (Fetching(p') ==> r'.local.Some? && r'.local.value.Named?)
    && (Fetching(p') && r.policy == Rename ==> (Fetching(p) && r'.local == r.local) || r'.local.value !in disk)
  }

  ghost predicate QuietBlock(s: State, s': State, t: TaskId) {
    && t in s.loop && t in s'.loop
    && var id := s.loop[t].record;
    && id in s.records && id in s'.records
    && QuietChange(s.records[id], s.loop[t].point, s'.records[id], s'.loop[t].point, s.disk)
  }

  lemma QuietFailure(s: State, t: TaskId)
    requires TaskKnown(s, t)
    ensures QuietBlock(s, Fails(s, t), t)
  {
  }

  lemma QuietDevice(s: State, t: TaskId)
    requires TaskKnown(s, t) && InvAt(s, s.loop[t].record) && s.loop[t].point.CheckingDevice?
    ensures QuietBlock(s, DeviceIsReady(s, t), t)
  {
    var id := s.loop[t].record;
    QuietFailure(s, t);
    if s.records[id].direction.Download? {
      RenameNeverReplaces(s.disk, s.records[id].local.value);
      ResolvedIsNamed(s.disk, s.records[id].local.value, s.records[id].policy);
    }
  }

  lemma QuietDownload(s: State, t: TaskId, reply: Reply)
    requires Accepts(s, t, reply) && !reply.CancelThrown? && !reply.Raised? && InvAt(s, s.loop[t].record)
    requires Fetching(s.loop[t].point) && !Completes(s, Resume(t, reply))
    ensures QuietBlock(s, ResumeTask(s, t, reply), t)
  {
    QuietFailure(s, t);
  }

  lemma QuietEdge(s: State, t: TaskId, reply: Reply)
    requires Accepts(s, t, reply) && !reply.CancelThrown? && InvAt(s, s.loop[t].record)
    requires s.loop[t].point.Created? || s.loop[t].point.AwaitingPermit? || s.loop[t].point.ScanningMedia?
    ensures QuietBlock(s, ResumeTask(s, t, reply), t)
  {
  }

  lemma QuietUpload(s: State, t: TaskId, reply: Reply)
    requires Accepts(s, t, reply) && !reply.CancelThrown? && !reply.Raised? && InvAt(s, s.loop[t].record)
    requires var p := s.loop[t].point; p.ResolvingRemote? || p.MakingDirectory? || p.Pushing? || p.CheckingRemote?
    ensures QuietBlock(s, ResumeTask(s, t, reply), t)
  {
    QuietFailure(s, t);
  }

  lemma QuietResumeBlock(s: State, t: TaskId, reply: Reply)
    requires Accepts(s, t, reply) && InvAt(s, s.loop[t].record) && !Completes(s, Resume(t, reply))
    ensures QuietBlock(s, ResumeTask(s, t, reply), t)
  {
    if reply.CancelThrown? {
    } else if s.loop[t].point.Created? || s.loop[t].point.AwaitingPermit? || s.loop[t].point.ScanningMedia? {
      QuietEdge(s, t, reply);
    } else if reply.Raised? {
      QuietFailure(s, t);
    } else if s.loop[t].point.CheckingDevice? {
      QuietDevice(s, t);
    } else if Fetching(s.loop[t].point) {
      QuietDownload(s, t, reply);
    } else {
      QuietUpload(s, t, reply);
    }
  }

  /** A quiet block of one task, on an otherwise unchanged queue, keeps every download. */
  lemma QuietKeeps(s: State, s': State, t: TaskId)
    requires Kept(s) && IsTaskStep(s, s', t) && QuietBlock(s, s', t) && SameNamed(s.disk, s'.disk)
    requires forall u :: u in s.loop && u != t && s.loop[u].Unfinished() ==> s.loop[u].record != s.loop[t].record
    ensures Kept(s')
  {
    var id := s.loop[t].record;
    assert s'.records == s.records[id := s'.records[id]] && s'.loop == s.loop[t := s'.loop[t]];
    assert forall i :: i in s'.records && Delivered(s'.records[i]) ==>
      i in s.records && Delivered(s.records[i]) && s'.records[i].local == s.records[i].local;
  }

  lemma QuietResumeKeeps(s: State, t: TaskId, reply: Reply)
    requires Inv(s) && Kept(s) && Accepts(s, t, reply) && !Completes(s, Resume(t, reply))
    ensures Kept(ResumeTask(s, t, reply))
  {
    assert InvAt(s, s.loop[t].record);
    QuietResumeBlock(s, t, reply);
    ResumeIsTaskStep(s, t, reply);
    OnlyCompletionWrites(s, Resume(t, reply));
    forall u | u in s.loop && u != t && s.loop[u].Unfinished() ensures s.loop[u].record != s.loop[t].record {
      if s.loop[u].record == s.loop[t].record { AtMostOneTask(s, t, u); }
    }
    QuietKeeps(s, ResumeTask(s, t, reply), t);
  }

  lemma CompletionKeeps(s: State, t: TaskId)
    requires Inv(s) && Kept(s) && s.concurrency == 1
    requires Accepts(s, t, Returned) && Completes(s, Resume(t, Returned))
    ensures Kept(ResumeTask(s, t, Returned))
    ensures NamedNotIn(s.records[s.loop[t].record].local, s.disk)
  {
    var s' := ResumeTask(s, t, Returned);
    var id := s.loop[t].record;
    assert InvAt(s, id);
    CompletionWrites(s, t);
    forall u | u in s.loop && u != t ensures !Fetching(s.loop[u].point) {
      if Fetching(s.loop[u].point) { SoleHolder(s, t, u); }
    }
    CompletedKept(s, s', id);
  }

  lemma CompletedKept(s: State, s': State, id: Id)
    requires Kept(s) && id in s.records && s.records[id].direction == Download
             && NamedNotIn(s.records[id].local, s.disk)
    requires id in s'.records && s'.records == s.records[id := s'.records[id]]
    requires s'.records[id].local == s.records[id].local && s'.records[id].policy == s.records[id].policy
    requires s.records[id].local.value in s'.disk
    requires forall p: LocalPath :: p.Named? && p in s.disk ==> p in s'.disk
    requires forall u :: u in s'.loop ==> !Fetching(s'.loop[u].point)
    ensures Kept(s')
  {
  }

  /** The steps that neither resume a task nor touch a user's file. */
  lemma SchedulingKeeps(s: State, id: Id, t: TaskId, r: Record)
    requires Kept(s) && t !in s.loop && r.policy == Rename && r.state == Queued && s.concurrency == 1
    requires forall u :: u in s.loop && Fetching(s.loop[u].point) ==> s.loop[u].record != id
    ensures Kept(Schedule(SetRecord(s, id, r), id, t))
  {
  }

  lemma MarkingKeeps(s: State, id: Id)
    requires Kept(s) && id in s.records && SameNamed(s.disk, MarkCancelled(s, id).disk)
    ensures Kept(MarkCancelled(s, id))
  {
  }

  lemma QueueingKeeps(s: State, e: Event)
    requires Inv(s) && Kept(s) && s.concurrency == 1 && Enabled(s, e) && Undisturbed(s, e)
    requires e.Enqueue? || e.Retry?
    ensures Kept(Apply(s, e))
  {
    assert InvAt(s, e.id);
    if e.Enqueue? {
      if |OpenIds(s.records)| < s.maximum { SchedulingKeeps(s, e.id, e.task, e.record); }
    } else if CanRetry(s, e.id) {
      SchedulingKeeps(s, e.id, e.task, RetryRecord(s, e.id, e.task).records[e.id]);
    }
  }

  lemma SamePointsKeep(s: State, s': State)
    requires Kept(s) && s'.records == s.records && s'.disk == s.disk
    requires forall t :: t in s'.loop ==>
        t in s.loop && s'.loop[t].point == s.loop[t].point && s'.loop[t].record == s.loop[t].record
    ensures Kept(s')
  {
  }

  lemma CancelCallKeeps(s: State, call: CallId, id: Id)
    requires Kept(s)
    ensures Kept(CancelBegins(s, call, id))
  {
    if id in s.records && !s.records[id].state.Final() {
      if id in s.tasks && s.tasks[id] in s.loop {
        SamePointsKeep(s, CancelBegins(s, call, id));
      } else {
        MarkingKeeps(s, id);
      }
    }
  }

  lemma CancelResumeKeeps(s: State, call: CallId)
    requires Kept(s) && call in s.waits && s.waits[call].record in s.records
    ensures Kept(CancelEnds(s, call))
  {
    MarkingKeeps(s, s.waits[call].record);
    SamePointsKeep(MarkCancelled(s, s.waits[call].record),
                   MarkCancelled(s.(waits := s.waits - {call}), s.waits[call].record));
    SamePointsKeep(s, s.(waits := s.waits - {call}));
  }

  lemma EnvironmentKeepsDownloads(s: State, path: LocalPath, content: Option<Bytes>)
    requires Inv(s) && Kept(s) && path.Named? && Undisturbed(s, Environment(path, content))
    ensures Kept(Apply(s, Environment(path, content)))
  {
    forall t | t in s.loop && Fetching(s.loop[t].point) && s.loop[t].record in s.records
      ensures s.records[s.loop[t].record].local != Some(path)
    {
      assert InvAt(s, s.loop[t].record);
    }
  }

  /** Under the Rename policy with one slot, every step keeps every download: none shares its
      destination with another, and the step that delivers one writes to a name that was free. */
  lemma NoDownloadIsLost(s: State, e: Event)
    requires Inv(s) && Kept(s) && s.concurrency == 1 && Enabled(s, e) && Orderly(s, e) && Undisturbed(s, e)
    ensures Kept(Apply(s, e))
    ensures Completes(s, e) ==> NamedNotIn(s.records[s.loop[e.task].record].local, s.disk)
  {
    match e
    case Enqueue(_, _, _) => QueueingKeeps(s, e);
    case Resume(t, reply) => if Completes(s, e) { CompletionKeeps(s, t); } else { QuietResumeKeeps(s, t, reply); }
    case DoneCallback(t) => SamePointsKeep(s, Apply(s, e));
    case CancelCall(call, id) => CancelCallKeeps(s, call, id);
    case CancelResume(call) => CancelResumeKeeps(s, call);
    case CancelSwallowed(t) => SamePointsKeep(s, Apply(s, e));
    case Retry(_, _) => QueueingKeeps(s, e);
    case Environment(path, content) => EnvironmentKeepsDownloads(s, path, content);
  }

  // ---------------------------------------------------------------- completion

  /** A download becomes COMPLETED only in the step that also renames its part file: an observer never
      finds it completed without its file, nor its file without COMPLETED. */
  lemma CompletedOnlyByDelivery(s: State, e: Event, id: Id)
    requires Inv(s) && Enabled(s, e) && Orderly(s, e)
    requires id in s.records && s.records[id].direction.Download? && !s.records[id].state.Completed?
    requires id in Apply(s, e).records && Delivered(Apply(s, e).records[id])
    ensures Completes(s, e) && s.loop[e.task].record == id
  {
    if e.Resume? {
      assert InvAt(s, s.loop[e.task].record);
      ResumeIsTaskStep(s, e.task, e.reply);
      if !Completes(s, e) { QuietResumeBlock(s, e.task, e.reply); }
    }
  }

  // ---------------------------------------------------------------- whole runs

  ghost predicate Quiet(s: State, events: seq<Event>)
    requires Legal(s, events)
    decreases |events|
  {
    events == [] || (Undisturbed(s, events[0]) && Quiet(Apply(s, events[0]), events[1..]))
  }

  /** A step never changes the file of a completed download. */
  lemma DeliveredFileStays(s: State, e: Event, id: Id)
    requires Inv(s) && Kept(s) && s.concurrency == 1 && Enabled(s, e) && Orderly(s, e) && Undisturbed(s, e)
    requires id in s.records && Delivered(s.records[id])
    ensures var p := s.records[id].local.value; p in Apply(s, e).disk && Apply(s, e).disk[p] == s.disk[p]
  {
    NoDownloadIsLost(s, e);
    if e.Environment? {
    } else if Completes(s, e) {
      CompletionWrites(s, e.task);
    } else {
      OnlyCompletionWrites(s, e);
    }
  }

  lemma OneSlotStays(s: State, e: Event)
    requires Inv(s) && Enabled(s, e) && Orderly(s, e)
    ensures Apply(s, e).concurrency == s.concurrency
  {
    if e.Resume? {
      assert InvAt(s, s.loop[e.task].record);
      ResumeIsTaskStep(s, e.task, e.reply);
    }
  }

  /** Nobody but the service writes to the path. */
  ghost predicate LeftTo(events: seq<Event>, p: LocalPath) { forall e :: e in events && e.Environment? ==> e.path != p }

  /** With one slot the service never overwrites a file, whoever owns it. */
  lemma NamedFileStays(s: State, e: Event, p: LocalPath)
    requires Inv(s) && Kept(s) && s.concurrency == 1 && Enabled(s, e) && Orderly(s, e) && Undisturbed(s, e)
    requires p.Named? && p in s.disk && !(e.Environment? && e.path == p)
    ensures p in Apply(s, e).disk && Apply(s, e).disk[p] == s.disk[p]
  {
    NoDownloadIsLost(s, e);
    if e.Environment? {
    } else if Completes(s, e) {
      CompletionWrites(s, e.task);
    } else {
      OnlyCompletionWrites(s, e);
    }
  }

  /** No other download has this file for its own. */
  ghost predicate SoleOwner(s: State, id: Id, p: LocalPath) {
    forall j :: j in s.records && j != id && Delivered(s.records[j]) ==> s.records[j].local != Some(p)
  }

  lemma SoleOwnerStays(s: State, e: Event, id: Id, p: LocalPath)
    requires Inv(s) && Kept(s) && s.concurrency == 1 && Enabled(s, e) && Orderly(s, e) && Undisturbed(s, e)
    requires p.Named? && p in s.disk && SoleOwner(s, id, p)
    ensures SoleOwner(Apply(s, e), id, p)
  {
    var s' := Apply(s, e);
    forall j | j in s'.records && j != id && Delivered(s'.records[j])
      ensures s'.records[j].local != Some(p)
    {
      NoDownloadIsLost(s, e);
      NothingElseDelivers(s, e, j);
      if Completes(s, e) { CompletionWrites(s, e.task); }
    }
  }

  lemma BlockDeliversDownloads(s: State, t: TaskId, reply: Reply, j: Id)
    requires Inv(s) && Accepts(s, t, reply)
    requires j in ResumeTask(s, t, reply).records && Delivered(ResumeTask(s, t, reply).records[j])
    ensures j in s.records && s.records[j].direction.Download?
  {
    assert InvAt(s, s.loop[t].record);
    ResumeIsTaskStep(s, t, reply);
    if !Completes(s, Resume(t, reply)) { QuietResumeBlock(s, t, reply); }
  }

  lemma DeliveredWasKnown(s: State, e: Event, j: Id)
    requires Inv(s) && Enabled(s, e) && j in Apply(s, e).records && Delivered(Apply(s, e).records[j])
    ensures j in s.records && s.records[j].direction.Download?
  {
    if e.Resume? { BlockDeliversDownloads(s, e.task, e.reply, j); }
  }

  /** A record is a completed download after a step if it was one before, with the same file, or if the step
      delivered it. */
  lemma NothingElseDelivers(s: State, e: Event, j: Id)
    requires Inv(s) && Enabled(s, e) && Orderly(s, e)
    requires j in Apply(s, e).records && Delivered(Apply(s, e).records[j])
    ensures j in s.records && s.records[j].direction.Download?
    ensures if s.records[j].state.Completed? then Apply(s, e).records[j] == s.records[j]
            else Completes(s, e) && s.loop[e.task].record == j
  {
    DeliveredWasKnown(s, e, j);
    if s.records[j].state.Completed? {
      CompletedLeftExactlyByALateCancel(s, e, j);
    } else {
      CompletedOnlyByDelivery(s, e, j);
    }
  }

  lemma {:induction false} FilesSurvive(s: State, events: seq<Event>, id: Id, p: LocalPath)
    requires Inv(s) && Kept(s) && s.concurrency == 1 && Legal(s, events) && Quiet(s, events) && LeftTo(events, p)
    requires p.Named? && p in s.disk && SoleOwner(s, id, p)
    ensures var s' := Execute(s, events); p in s'.disk && s'.disk[p] == s.disk[p] && SoleOwner(s', id, p)
    decreases |events|
  {
    if events != [] {
      NoDownloadIsLost(s, events[0]);
      StepKeeps(s, events[0]);
      OneSlotStays(s, events[0]);
      NamedFileStays(s, events[0], p);
      SoleOwnerStays(s, events[0], id, p);
      FilesSurvive(Apply(s, events[0]), events[1..], id, p);
    }
  }

  /** A `cancel` of the record resumes in this run. */
  ghost predicate CancelledLate(s: State, events: seq<Event>, id: Id)
    requires Legal(s, events)
    decreases |events|
  {
    events != [] && (CancelsLate(s, events[0], id) || CancelledLate(Apply(s, events[0]), events[1..], id))
  }

  lemma {:induction false} RecordStays(s: State, events: seq<Event>, id: Id)
    requires Inv(s) && Legal(s, events) && !CancelledLate(s, events, id)
    requires id in s.records && Delivered(s.records[id])
    ensures id in Execute(s, events).records && Execute(s, events).records[id] == s.records[id]
    decreases |events|
  {
    if events != [] {
      StepKeeps(s, events[0]);
      CompletedLeftExactlyByALateCancel(s, events[0], id);
      RecordStays(Apply(s, events[0]), events[1..], id);
    }
  }

  /** Over every run with one slot that nothing disturbs, a delivered file keeps the bytes it was delivered with, and
      no other download ever shares its name, even if a late `cancel` takes the record out of COMPLETED. Unless one
      does, the record stays as it is. */
  lemma DeliveredFilesSurvive(s: State, events: seq<Event>, id: Id)
    requires Inv(s) && Kept(s) && s.concurrency == 1 && Legal(s, events) && Quiet(s, events)
    requires id in s.records && Delivered(s.records[id]) && LeftTo(events, s.records[id].local.value)
    ensures var s' := Execute(s, events);
            var p := s.records[id].local.value;
            && p in s'.disk && s'.disk[p] == s.disk[p] && SoleOwner(s', id, p)
            && (!CancelledLate(s, events, id) ==> id in s'.records && s'.records[id] == s.records[id])
  {
    FilesSurvive(s, events, id, s.records[id].local.value);
    if !CancelledLate(s, events, id) { RecordStays(s, events, id); }
  }

  lemma {:induction false} QuietRunKeeps(s: State, events: seq<Event>)
    requires Inv(s) && Kept(s) && s.concurrency == 1 && Legal(s, events) && Quiet(s, events)
    ensures Inv(Execute(s, events)) && Kept(Execute(s, events))
    decreases |events|
  {
    if events != [] {
      NoDownloadIsLost(s, events[0]);
      StepKeeps(s, events[0]);
      OneSlotStays(s, events[0]);
      QuietRunKeeps(Apply(s, events[0]), events[1..]);
    }
  }

  /** After every quiet run of a fresh service with one slot, completed downloads have their files, each
      its own. */
  lemma OneSlotKeepsEveryDownload(maximum: nat, disk: Disk, events: seq<Event>)
    requires forall p: LocalPath :: p in disk ==> !p.Part?
    requires Legal(Initial(1, maximum, disk), events) && Quiet(Initial(1, maximum, disk), events)
    ensures Inv(Execute(Initial(1, maximum, disk), events)) && Kept(Execute(Initial(1, maximum, disk), events))
  {
    InitialInv(1, maximum, disk);
    QuietRunKeeps(Initial(1, maximum, disk), events);
  }
}
