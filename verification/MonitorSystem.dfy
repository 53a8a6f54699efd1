/** The monitor among the transfers it started and a user who edits files on both sides.

    Scans are serialised by the scan lock; between two blocks of a scan anything else can happen.
    Enqueueing never suspends, so observing and queueing an Android file is one block. */
module MonitorSystem {
  import opened Wrappers
  import opened MonitorModel

  /** How far the scan in progress has come. */
  datatype Phase =
    | Idle
    | Downloads(left: set<Path>)
    | Deleting(path: Path, left: set<Path>)
    | Uploads(left: set<Path>)
    | StatingUpload(destination: Path, left: set<Path>)
    | ListingAndroid
    | Android(listing: map<Path, Stat>, left: set<Path>)
    | ListingPc
    | Pc(listing: map<Path, Stat>, left: set<Path>)
    | Copying(file: Fingerprint, before: Stat, listing: map<Path, Stat>, left: set<Path>)
    | Copied(file: Fingerprint, before: Stat, copy: Stat, listing: map<Path, Stat>, left: set<Path>)
    | Finishing

  /** The files of the watched Android folder and of the watched PC folder, and the transfers. */
  datatype World = World(records: map<Id, Transfer>, remote: map<Path, Stat>, local: map<Path, Stat>)

  /** One observation of a path by a scan. */
  datatype Seen = Seen(stat: Stat, at: real)

  type Log = map<Path, seq<Seen>>

  /** What happened so far; no block reads it. `delivered` are the versions that finished downloads put into the
      PC folder, each with its download, and `localMarks` every version a PC file ever had; `queued` are the
      downloads the monitor started, `sources` the version each was started for, `closed` those whose end it has
      reconciled, `manual` the downloads somebody else started; `counted` and `deletionAsked` are those it
      reported as completed and whose source it asked to delete; `sent` are the versions it handed to the
      upload queue, as copied, and `stray` the delivered ones that are off the monitor's books: by a download it
      does not wait for, at a path whose copy a scan was about to take, or of a download that a late `cancel` took
      out of COMPLETED before the version counted as handled. */
  datatype History = History(
    delivered: map<Fingerprint, Id>, localMarks: set<Fingerprint>,
    queued: set<Id>, sources: map<Id, Fingerprint>, closed: set<Id>, manual: set<Id>,
    counted: set<Id>, deletionAsked: set<Id>, sent: set<Fingerprint>, stray: set<Fingerprint>,
    androidLog: Log, pcLog: Log)

  datatype System = System(core: Core, world: World, phase: Phase, now: real, history: History)

  datatype Event =
    | BeginScan(now: real)
    | Reconcile(path: Path)
    | DeletionEnds(absent: bool)
    | EndDownloads
    | ReconcileUp(path: Path)
    | UploadStat
    | EndUploads(android: bool)
    | ListAndroid
    | SeeAndroid(path: Path, started: Option<Id>)
    | EndAndroid
    | ListPc
    | SeePc(path: Path)
    | CopyTaken
    | SpoolEnds(started: Option<Id>)
    | EndPc
    | Finish(core: Core)
    | ScanFails
    | EditRemote(path: Path, file: Option<Stat>)
    | EditLocal(path: Path, file: Option<Stat>)
    | StartDownload(id: Id)
    | DownloadDone(id: Id, path: Path, stat: Stat)
    | UploadDone(id: Id, path: Path, stat: Stat)
    | TransferEnds(id: Id)
    | CancelledLate(id: Id)
    | RetryTransfer(id: Id)

  function Lookup<T>(m: map<Path, T>, key: Path): Option<T> { if key in m then Some(m[key]) else None }

  function Record(w: World, transfer: Option<Id>): Option<Transfer> {
    if transfer.Some? && transfer.value in w.records then Some(w.records[transfer.value]) else None
  }

  /** The last component of a path. */
  function BaseName(path: string): string {
    if path == "" || path[|path| - 1] == '/' then "" else BaseName(path[..|path| - 1]) + [path[|path| - 1]]
  }

  /** The files a scan watches: neither hidden nor partial. */
  function Visible(files: map<Path, Stat>): map<Path, Stat> {
    map p | p in files && !Ignored(BaseName(p.text)) :: files[p]
  }

  /** The entries that wait for a transfer to be reconciled. */
  function Awaiting(table: Table): set<Path> { set p | p in table && table[p].transfer.Some? }

  function Note(log: Log, path: Path, stat: Stat, now: real): Log {
    log[path := (if path in log then log[path] else []) + [Seen(stat, now)]]
  }

  function AfterAndroid(c: Core): Phase { if c.config.pcEnabled then ListingPc else Finishing }

  /** The destination a record names, as found on the PC now. */
  function Found(w: World, record: Option<Transfer>): Option<Stat> {
    if record.None? then None else Lookup(w.local, record.value.destination)
  }

  predicate IsDownload(s: System, id: Id) { id in s.history.queued || id in s.history.manual }

  /** The monitor started this download and has not reconciled its end yet. */
  predicate Outstanding(h: History, id: Id) { id in h.queued && id !in h.closed }

  /** A scan listed the path and has not yet copied, or passed over, the file there. */
  predicate AwaitsCopy(phase: Phase, path: Path) {
    || ((phase.Pc? || phase.Copying? || phase.Copied?) && path in phase.left && path in phase.listing)
    || (phase.Copying? && path == phase.file.path)
  }

  /** Transfer ids are fresh random tokens. */
  predicate NewId(s: System, started: Option<Id>) {
    started.Some? ==>
      && started.value !in s.world.records && started.value !in s.history.queued
      && started.value !in s.history.manual
  }

  predicate Enabled(s: System, e: Event) {
    match e
    case BeginScan(now) => s.phase.Idle? && now >= s.now
    case Reconcile(path) => s.phase.Downloads? && path in s.phase.left && path in s.core.observed
    case DeletionEnds(_) => s.phase.Deleting? && s.phase.path in s.core.observed
    case EndDownloads => s.phase.Downloads? && s.phase.left == {}
    case ReconcileUp(path) => s.phase.Uploads? && path in s.phase.left && path in s.core.localObserved
    case UploadStat => s.phase.StatingUpload?
    case EndUploads(android) => s.phase.Uploads? && s.phase.left == {} && (s.core.config.enabled ==> android)
    case ListAndroid => s.phase.ListingAndroid?
    case SeeAndroid(path, id) =>
      s.phase.Android? && path in s.phase.left && path in s.phase.listing && NewId(s, id)
    case EndAndroid => s.phase.Android? && s.phase.left == {}
    case ListPc => s.phase.ListingPc?
    case SeePc(path) => s.phase.Pc? && path in s.phase.left && path in s.phase.listing
    case CopyTaken => s.phase.Copying? && s.phase.file.path in s.core.localObserved
    case SpoolEnds(id) =>
      && s.phase.Copied? && s.phase.file.path in s.core.localObserved && NewId(s, id)
      && (id.Some? ==>
           && Lookup(s.world.local, s.phase.file.path) == Some(s.phase.before)
           && s.phase.copy.size == s.phase.before.size)
    case EndPc => s.phase.Pc? && s.phase.left == {}
    case Finish(_) => s.phase.Finishing?
    case ScanFails => s.phase.StatingUpload? || s.phase.ListingAndroid? || s.phase.ListingPc?
    case EditRemote(_, _) => true
    case EditLocal(_, _) => true
    case StartDownload(id) => NewId(s, Some(id))
    case DownloadDone(id, _, _) => id in s.world.records && s.world.records[id].outcome.Running? && IsDownload(s, id)
    case UploadDone(id, _, _) => id in s.world.records && s.world.records[id].outcome.Running? && !IsDownload(s, id)
    case TransferEnds(id) => id in s.world.records && s.world.records[id].outcome.Running?
    case CancelledLate(id) => id in s.world.records && s.world.records[id].outcome.Succeeded?
    case RetryTransfer(id) => id in s.world.records && s.world.records[id].outcome.Ended?
  }

  // ---------------------------------------------------------------- the blocks of a scan

  function ReconcileStep(s: System, path: Path): System
    requires Enabled(s, Reconcile(path))
  {
    var e := s.core.observed[path];
    var record := Record(s.world, e.transfer);
    var core := ReconcileDownload(s.core, path, record, Found(s.world, record), s.now);
    var left := s.phase.left - {path};
    var asks := Deletes(s.core, path, record);
    s.(core := core, phase := if asks then Deleting(path, left) else Downloads(left),
       history := s.history.(
         counted := if core.downloadsCompleted > s.core.downloadsCompleted && e.transfer.Some?
                    then s.history.counted + {e.transfer.value} else s.history.counted,
         deletionAsked := if asks && e.transfer.Some? then s.history.deletionAsked + {e.transfer.value}
           else s.history.deletionAsked,
         closed := if record.Some? && !record.value.outcome.Running? && e.transfer.Some?
                   then s.history.closed + {e.transfer.value} else s.history.closed))
  }

  function ReconcileUpStep(s: System, path: Path): System
    requires Enabled(s, ReconcileUp(path))
  {
    var record := Record(s.world, s.core.localObserved[path].transfer);
    var left := s.phase.left - {path};
    s.(core := ReconcileUpload(s.core, path, record, s.now),
       phase := if record.Some? && record.value.outcome.Succeeded? then StatingUpload(record.value.destination, left)
         else Uploads(left))
  }

  function ListAndroidStep(s: System): System {
    var listing := Visible(s.world.remote);
    var core := BaselineAndroid(s.core, listing, s.now);
    s.(core := core,
       phase := if s.core.baselined || s.core.config.includeExisting then Android(listing, listing.Keys)
         else AfterAndroid(core))
  }

  function WithRecord(w: World, started: Option<Id>): World {
    w.(records := if started.Some? then w.records[started.value := Transfer(Running, Path(""))] else w.records)
  }

  function SeeAndroidStep(s: System, path: Path, started: Option<Id>): System
    requires Enabled(s, SeeAndroid(path, started))
  {
    var f := Fingerprint(path, s.phase.listing[path]);
    var seen := ObserveAndroid(s.core, f, s.now);
    var queues := Queues(s.core.observed, s.core.processed, s.core.config, f, s.now);
    var id := if queues then started else None;
    s.(core := if queues then DownloadAnswered(seen, path, started, s.now) else seen,
       phase := Android(s.phase.listing, s.phase.left - {path}),
       world := WithRecord(s.world, id),
       history := s.history.(androidLog := Note(s.history.androidLog, path, f.stat, s.now),
                             queued := if id.Some? then s.history.queued + {id.value} else s.history.queued,
                             sources := if id.Some? then s.history.sources[id.value := f] else s.history.sources))
  }

  function ListPcStep(s: System): System {
    var listing := Visible(s.world.local);
    s.(core := BaselinePc(s.core, listing, s.now),
       phase := if s.core.pcBaselined || s.core.config.includeExistingPc then Pc(listing, listing.Keys) else Finishing)
  }

  /** A file to be queued is stated before it is copied; one that is gone by then is a failed attempt. */
  function SeePcStep(s: System, path: Path): System
    requires Enabled(s, SeePc(path))
  {
    var f := Fingerprint(path, s.phase.listing[path]);
    var left := s.phase.left - {path};
    var seen := ObservePc(s.core, f, s.now);
    var queues := Queues(s.core.localObserved, s.core.processedLocal, s.core.config, f, s.now);
    var before := Lookup(s.world.local, path);
    s.(core := if queues && before.None? then UploadAnswered(seen, path, None, s.now) else seen,
       phase := if queues && before.Some? then Copying(f, before.value, s.phase.listing, left)
         else Pc(s.phase.listing, left),
       history := s.history.(pcLog := Note(s.history.pcLog, path, f.stat, s.now)))
  }

  /** The thread copies whatever is at the path now. */
  function CopyStep(s: System): System
    requires Enabled(s, CopyTaken)
  {
    var path := s.phase.file.path;
    var found := Lookup(s.world.local, path);
    s.(core := if found.None? then UploadAnswered(s.core, path, None, s.now) else s.core,
       phase := if found.None? then Pc(s.phase.listing, s.phase.left)
                else Copied(s.phase.file, s.phase.before, found.value, s.phase.listing, s.phase.left))
  }

  /** The copy is queued if size and time of the file are what they were before it was taken. */
  function SpoolStep(s: System, started: Option<Id>): System
    requires Enabled(s, SpoolEnds(started))
  {
    s.(core := UploadAnswered(s.core, s.phase.file.path, started, s.now), phase := Pc(s.phase.listing, s.phase.left),
       world := WithRecord(s.world, started),
       history := s.history.(sent := if started.Some?
                             then s.history.sent + {Fingerprint(s.phase.file.path, s.phase.copy)}
                                     else s.history.sent))
  }

  /** A download ends: the monitor waits for it and no copy of the path is about to be taken, or it is stray. */
  predicate OnTime(s: System, id: Id, path: Path) { Outstanding(s.history, id) && !AwaitsCopy(s.phase, path) }

  /** The versions this download brought that do not count as handled yet. */
  function Unhandled(s: System, id: Id): set<Fingerprint> {
    set f | f in s.history.delivered && s.history.delivered[f] == id && f !in s.core.processedLocal
  }

  function Edited(files: map<Path, Stat>, path: Path, file: Option<Stat>): map<Path, Stat> {
    if file.Some? then files[path := file.value] else files - {path}
  }

  function LocalMark(path: Path, file: Option<Stat>): set<Fingerprint> {
    if file.Some? then {Fingerprint(path, file.value)} else {}
  }

  function Apply(s: System, e: Event): System
    requires Enabled(s, e)
  {
    match e
    case BeginScan(now) => s.(phase := Downloads(Awaiting(s.core.observed)), now := now)
    case Reconcile(path) => ReconcileStep(s, path)
    case DeletionEnds(absent) =>
      s.(core := DeletionEnded(s.core, s.phase.path, absent), phase := Downloads(s.phase.left),
         world := if absent then s.world.(remote := s.world.remote - {s.phase.path}) else s.world)
    case EndDownloads => s.(phase := Uploads(Awaiting(s.core.localObserved)))
    case ReconcileUp(path) => ReconcileUpStep(s, path)
    case UploadStat =>
      s.(core := UploadStated(s.core, s.phase.destination, Lookup(s.world.remote, s.phase.destination), s.now),
         phase := Uploads(s.phase.left))
    case EndUploads(android) => s.(phase := if android then ListingAndroid else AfterAndroid(s.core))
    case ListAndroid => ListAndroidStep(s)
    case SeeAndroid(path, id) => SeeAndroidStep(s, path, id)
    case EndAndroid => s.(core := s.core.(observed := Sweep(s.core.observed, s.phase.listing.Keys)),
                          phase := AfterAndroid(s.core))
    case ListPc => ListPcStep(s)
    case SeePc(path) => SeePcStep(s, path)
    case CopyTaken => CopyStep(s)
    case SpoolEnds(id) => SpoolStep(s, id)
    case EndPc => s.(core := s.core.(localObserved := Sweep(s.core.localObserved, s.phase.listing.Keys)),
                     phase := Finishing)
    case Finish(core) => s.(core := core, phase := Idle)
    case ScanFails => s.(phase := Idle)
    case EditRemote(path, file) => s.(world := s.world.(remote := Edited(s.world.remote, path, file)))
    case EditLocal(path, file) =>
      s.(world := s.world.(local := Edited(s.world.local, path, file)),
         history := s.history.(localMarks := s.history.localMarks + LocalMark(path, file)))
    case StartDownload(id) =>
      s.(world := WithRecord(s.world, Some(id)), history := s.history.(manual := s.history.manual + {id}))
    case DownloadDone(id, path, stat) =>
      s.(world := s.world.(records := s.world.records[id := Transfer(Succeeded, path)],
                           local := s.world.local[path := stat]),
         history := s.history.(delivered := s.history.delivered[Fingerprint(path, stat) := id],
                               localMarks := s.history.localMarks + {Fingerprint(path, stat)},
                               stray := if OnTime(s, id, path) then s.history.stray
                                 else s.history.stray + {Fingerprint(path, stat)}))
    case UploadDone(id, path, stat) =>
      s.(world := s.world.(records := s.world.records[id := Transfer(Succeeded, path)],
                           remote := s.world.remote[path := stat]))
    case TransferEnds(id) => s.(world := s.world.(records := s.world.records[id := Transfer(Ended, Path(""))]))
    case CancelledLate(id) =>
      s.(world := s.world.(records := s.world.records[id := Transfer(Ended, Path(""))]),
         history := s.history.(stray := s.history.stray + Unhandled(s, id)))
    case RetryTransfer(id) => s.(world := s.world.(records := s.world.records[id := Transfer(Running, Path(""))]))
  }

  /** Trimming may drop settled entries, but no mark. */
  ghost predicate NoMarkEvicted(s: System, e: Event) { e.Finish? ==> Thinned(s.core, e.core) }

  function Initial(config: Config, remote: map<Path, Stat>, local: map<Path, Stat>): System {
    System(Core(config, map[], map[], map[], map[], false, false, 0, 0, 0, 0, 0),
           World(map[], remote, local), Idle, 0.0,
           History(map[], set p | p in local :: Fingerprint(p, local[p]),
                   {}, map[], {}, {}, {}, {}, {}, {}, map[], map[]))
  }

  lemma TrimmingWithinBoundsEvictsNothing(c: Core, c': Core)
    requires Trimmed(c, c')
    requires |c.processed| <= MAX_PROCESSED && |c.processedLocal| <= MAX_PROCESSED
    requires |Settled(c.observed)| <= MAX_SETTLED && |Settled(c.localObserved)| <= MAX_SETTLED
    ensures c' == c
  {
  }

  /** As long as there are at most 5000 marks on either side, trimming drops none. */
  lemma TrimmingKeepsMarks(s: System, core: Core)
    requires Trimmed(s.core, core)
    requires |s.core.processed| <= MAX_PROCESSED && |s.core.processedLocal| <= MAX_PROCESSED
    ensures NoMarkEvicted(s, Finish(core))
  {
  }

  // ---------------------------------------------------------------- what the steps leave alone

  predicate IsWorldEvent(e: Event) {
    e.EditRemote? || e.EditLocal? || e.StartDownload? || e.DownloadDone? || e.UploadDone? || e.TransferEnds?
      || e.CancelledLate? || e.RetryTransfer?
  }

  predicate WritesAndroidTable(e: Event) {
    e.SeeAndroid? || e.Reconcile? || e.DeletionEnds? || e.UploadStat? || e.ListAndroid? || e.EndAndroid? || e.Finish?
  }

  predicate WritesPcTable(e: Event) {
    e.Reconcile? || e.ReconcileUp? || e.ListPc? || e.SeePc? || e.CopyTaken? || e.SpoolEnds? || e.EndPc? || e.Finish?
  }

  /** The Android table, its marks and counters, and what the monitor knows of its downloads. */
  ghost predicate SameAndroidSide(s: System, s': System) {
    && s'.core.observed == s.core.observed && s'.core.processed == s.core.processed
    && s'.core.downloadsQueued == s.core.downloadsQueued && s'.core.downloadsCompleted == s.core.downloadsCompleted
    && s'.history.queued == s.history.queued && s'.history.closed == s.history.closed
    && s'.history.sources == s.history.sources && s'.history.counted == s.history.counted
    && s'.history.deletionAsked == s.history.deletionAsked
    && (forall id :: id in s.world.records ==> id in s'.world.records)
  }

  ghost predicate SamePcSide(s: System, s': System) {
    s'.core.localObserved == s.core.localObserved && s'.core.processedLocal == s.core.processedLocal
  }

  lemma TheWorldWritesNoCore(s: System, e: Event)
    requires Enabled(s, e) && IsWorldEvent(e)
    ensures Apply(s, e).core == s.core && Apply(s, e).phase == s.phase
  {
  }

  lemma TheWorldWritesNoTable(s: System, e: Event)
    requires Enabled(s, e) && IsWorldEvent(e)
    ensures SameAndroidSide(s, Apply(s, e)) && SamePcSide(s, Apply(s, e)) && Apply(s, e).phase == s.phase
  {
    TheWorldWritesNoCore(s, e);
  }

  lemma ScanLeavesAndroidTable(s: System, e: Event)
    requires Enabled(s, e) && !WritesAndroidTable(e) && !IsWorldEvent(e)
    ensures SameAndroidSide(s, Apply(s, e))
    ensures !s.phase.Deleting? && !Apply(s, e).phase.Deleting?
  {
  }

  lemma AndroidTableStays(s: System, e: Event)
    requires Enabled(s, e) && !WritesAndroidTable(e)
    ensures SameAndroidSide(s, Apply(s, e))
    ensures Apply(s, e).phase == s.phase || !(s.phase.Deleting? || Apply(s, e).phase.Deleting?)
  {
    if IsWorldEvent(e) { TheWorldWritesNoTable(s, e); } else { ScanLeavesAndroidTable(s, e); }
  }

  lemma PcTableStays(s: System, e: Event)
    requires Enabled(s, e) && !WritesPcTable(e)
    ensures SamePcSide(s, Apply(s, e))
  {
    if IsWorldEvent(e) { TheWorldWritesNoTable(s, e); }
  }

  // ---------------------------------------------------------------- runs

  ghost predicate Legal(s: System, events: seq<Event>)
    decreases |events|
  {
    events == [] || (Enabled(s, events[0]) && Legal(Apply(s, events[0]), events[1..]))
  }

  ghost function Execute(s: System, events: seq<Event>): System
    requires Legal(s, events)
    decreases |events|
  {
    if events == [] then s else Execute(Apply(s, events[0]), events[1..])
  }
}
