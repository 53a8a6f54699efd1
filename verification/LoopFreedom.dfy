/** A file that a download put into the watched PC folder is not sent back to the phone.

    The file is on disk, complete, from the step that makes its record COMPLETED, and that step may
    fall anywhere in a scan, so the PC side of the same scan can see the file before the download is
    reconciled. What saves it: the next scan reconciles before it looks at the PC folder again, and a
    single sighting never suffices to queue a file. What does not save it: the scan copies whatever is
    at a path when its turn comes, not what it listed; it knows nothing of downloads started by somebody
    else; and it takes a download that a late `cancel` marked for failed. Those deliveries are the stray ones. */
module LoopFreedom {
  import opened Wrappers
  import opened MonitorModel
  import opened MonitorSystem

  /** The watched-folder entry of `p` still carries the transfer id. */
  ghost predicate Tracks(s: System, id: Id, p: Path) {
    p in s.core.observed && s.core.observed[p].transfer == Some(id)
  }

  /** The PC table has this version of the file. */
  ghost predicate Noticed(c: Core, f: Fingerprint) {
    f.path in c.localObserved && c.localObserved[f.path].mark == f
  }

  ghost predicate SeenAtMostOnce(c: Core, f: Fingerprint) {
    Noticed(c, f) ==> c.localObserved[f.path].sightings <= 1
  }

  ghost predicate OnDisk(w: World, f: Fingerprint) { f.path in w.local && w.local[f.path] == f.stat }

  predicate ScansPc(phase: Phase) { phase.Pc? || phase.Copying? || phase.Copied? }

  /** This version is in the listing and its turn is still to come. */
  ghost predicate StillListed(phase: Phase, f: Fingerprint) {
    ScansPc(phase) && f.path in phase.left && f.path in phase.listing && phase.listing[f.path] == f.stat
  }

  /** A delivered version not reconciled yet, with `p` its entry on the Android side: until the entry's
      turn one sighting is tolerated, from then until the PC folder is listed there is none, and while the
      listing is worked off there is none until the file's own turn. */
  ghost predicate Settling(s: System, f: Fingerprint, p: Path) {
    && SeenAtMostOnce(s.core, f)
    && (s.phase.Idle? || s.phase.Finishing?
        || (if s.phase.Downloads? || s.phase.Deleting? then p in s.phase.left || !Noticed(s.core, f)
            else if ScansPc(s.phase) then !(StillListed(s.phase, f) && Noticed(s.core, f))
            else !Noticed(s.core, f)))
  }

  /** The version is neither on disk nor in the listing at work. */
  ghost predicate Gone(s: System, f: Fingerprint) { !OnDisk(s.world, f) && !StillListed(s.phase, f) }

  ghost predicate Awaited(s: System, id: Id, f: Fingerprint) {
    && id in s.world.records && s.world.records[id] == Transfer(Succeeded, f.path) && Outstanding(s.history, id)
    && id in s.history.sources && Settling(s, f, s.history.sources[id].path)
  }

  ghost predicate Guarded(s: System, id: Id, f: Fingerprint) {
    f in s.core.processedLocal || Gone(s, f) || Awaited(s, id, f)
  }

  /** The versions that were delivered on the monitor's books. */
  function Timely(h: History): set<Fingerprint> { h.delivered.Keys - h.stray }

  /** A download the monitor waits for is carried by the entry of its source, which still shows the
      version it was started for. */
  ghost predicate TracksSource(s: System, id: Id) {
    && id in s.history.sources && id in s.world.records
    && Tracks(s, id, s.history.sources[id].path)
    && s.core.observed[s.history.sources[id].path].mark == s.history.sources[id]
  }

  ghost predicate PendingTracked(s: System) {
    forall id :: Outstanding(s.history, id) ==> TracksSource(s, id)
  }

  /** Every version the monitor or the disk knows of is in the history. */
  ghost predicate Remembered(s: System) {
    && (forall p :: p in s.core.localObserved ==>
          s.core.localObserved[p].mark.path == p && s.core.localObserved[p].mark in s.history.localMarks)
    && (forall p :: p in s.world.local ==> Fingerprint(p, s.world.local[p]) in s.history.localMarks)
    && s.history.sent <= s.history.localMarks && s.history.delivered.Keys <= s.history.localMarks
    && s.history.stray <= s.history.delivered.Keys
  }

  ghost predicate ListingRemembered(s: System) {
    ScansPc(s.phase) ==>
      && (forall p :: p in s.phase.listing ==> Fingerprint(p, s.phase.listing[p]) in s.history.localMarks)
      && (s.phase.Copying? ==> s.phase.file in s.history.localMarks)
      && (s.phase.Copied? ==> Fingerprint(s.phase.file.path, s.phase.copy) in s.history.localMarks)
  }

  ghost predicate NoTransfersBeforeBaseline(s: System) {
    !s.core.baselined ==> forall p :: p in s.core.observed ==> s.core.observed[p].transfer.None?
  }

  ghost predicate AsListed(s: System, p: Path, listed: Stat) {
    p in s.world.local && Fingerprint(p, s.world.local[p]) in Timely(s.history) ==> s.world.local[p] == listed
  }

  /** At a path whose copy is still to come, a timely version on disk is the one that was listed. */
  ghost predicate ListedAsOnDisk(s: System) {
    && (ScansPc(s.phase) ==> forall p :: p in s.phase.left && p in s.phase.listing ==>
        AsListed(s, p, s.phase.listing[p]))
    && (s.phase.Copying? ==> s.phase.file !in Timely(s.history) && AsListed(s, s.phase.file.path, s.phase.file.stat))
    && (s.phase.Copied? ==> Fingerprint(s.phase.file.path, s.phase.copy) !in Timely(s.history))
  }

  ghost predicate Inv(s: System) {
    && s.core.config.Valid() && Remembered(s) && ListingRemembered(s) && ListedAsOnDisk(s)
    && NoTransfersBeforeBaseline(s) && (s.phase.Android? ==> s.core.baselined)
    && PendingTracked(s)
    && s.history.sent !! Timely(s.history)
    && forall f :: f in s.history.delivered && f !in s.history.stray ==> Guarded(s, s.history.delivered[f], f)
  }

  /** What the promise asks of the world around the monitor: the source of a download keeps its size and
      time until the download's end is reconciled, no upload lands on it meanwhile, trimming drops neither a mark
      nor the entry of such a source, a finished download has a modification time of its own, and nobody puts a
      delivered version back before it counts as handled or while its path waits to be copied. */
  ghost predicate Undisturbed(s: System, e: Event) {
    match e
    case SeeAndroid(path, _) =>
      s.phase.Android? && path in s.phase.listing ==>
        forall id :: Outstanding(s.history, id) && id in s.history.sources && s.history.sources[id].path == path ==>
          s.history.sources[id].stat == s.phase.listing[path]
    case UploadStat =>
      s.phase.StatingUpload? && s.phase.destination in s.world.remote ==>
        forall id :: Outstanding(s.history, id) && id in s.history.sources ==>
          s.history.sources[id].path != s.phase.destination
    case Finish(core) =>
      && Thinned(s.core, core)
      && forall id :: Outstanding(s.history, id) && id in s.history.sources ==>
           s.history.sources[id].path in s.core.observed ==> s.history.sources[id].path in core.observed
    case EditLocal(path, file) =>
      file.Some? && Fingerprint(path, file.value) in s.history.delivered.Keys ==>
        Fingerprint(path, file.value) in s.core.processedLocal && !AwaitsCopy(s.phase, path)
    case DownloadDone(_, path, stat) => Fingerprint(path, stat) !in s.history.localMarks
    case _ => true
  }

  lemma InitialInv(config: Config, remote: map<Path, Stat>, local: map<Path, Stat>)
    requires config.Valid()
    ensures Inv(Initial(config, remote, local))
  {
  }

  // ---------------------------------------------------------------- the promise

  /** In every reachable state: an observation of a timely version does not queue it. */
  lemma DeliveredFileIsNotQueued(s: System, path: Path)
    requires Inv(s) && Enabled(s, SeePc(path))
    requires Fingerprint(path, s.phase.listing[path]) in Timely(s.history)
    ensures !Queues(s.core.localObserved, s.core.processedLocal, s.core.config,
                    Fingerprint(path, s.phase.listing[path]), s.now)
    ensures SeePcStep(s, path).phase.Pc?
  {
    var f := Fingerprint(path, s.phase.listing[path]);
    assert Guarded(s, s.history.delivered[f], f);
  }

  // ---------------------------------------------------------------- the guard of one delivered version

  /** Reconciling one entry: what it does on the PC side, and what becomes of the version it was for. */
  lemma ReconcileEffect(c: Core, path: Path, record: Option<Transfer>, found: Option<Stat>, now: real, f: Fingerprint)
    requires path in c.observed
    ensures var c' := ReconcileDownload(c, path, record, found, now);
            var marks := Arrived(record) && found.Some? && record.value.destination == f.path;
            && (f in c.processedLocal ==> f in c'.processedLocal)
            && (marks && found.value == f.stat ==> f in c'.processedLocal)
            && (marks && found.value != f.stat ==> !Noticed(c', f))
            && (!marks ==> (Noticed(c', f) <==> Noticed(c, f))
                           && (Noticed(c, f) ==> c'.localObserved[f.path] == c.localObserved[f.path]))
  {
  }

  lemma ReconcileGuards(s: System, path: Path, id: Id, f: Fingerprint)
    requires Enabled(s, Reconcile(path)) && Guarded(s, id, f) && PendingTracked(s)
    ensures Guarded(ReconcileStep(s, path), id, f)
  {
    var record := Record(s.world, s.core.observed[path].transfer);
    ReconcileEffect(s.core, path, record, Found(s.world, record), s.now, f);
    if f !in s.core.processedLocal && !Gone(s, f) {
      assert TracksSource(s, id);
    }
  }

  lemma ObserveFrameOfRecords(s: System, path: Path, started: Option<Id>)
    requires Enabled(s, SeeAndroid(path, started))
    ensures var s' := SeeAndroidStep(s, path, started);
            && (forall id :: id in s.world.records ==>
                  id in s'.world.records && s'.world.records[id] == s.world.records[id])
            && (forall id :: id in s.history.queued ==> id in s'.history.queued)
            && (forall id :: id in s.history.queued && id in s.history.sources ==>
                  id in s'.history.sources && s'.history.sources[id] == s.history.sources[id])
  {
  }

  /** Observing an Android file leaves the PC side, the disk and every record there was alone. */
  lemma ObserveFrame(s: System, path: Path, started: Option<Id>)
    requires Enabled(s, SeeAndroid(path, started))
    ensures var s' := SeeAndroidStep(s, path, started);
            && s'.core.localObserved == s.core.localObserved && s'.core.processedLocal == s.core.processedLocal
            && s'.world.local == s.world.local && s'.phase.Android? && s'.core.config == s.core.config
            && s'.history == s.history.(androidLog := s'.history.androidLog, queued := s'.history.queued,
                                        sources := s'.history.sources)
            && (forall id :: id in s.world.records ==>
                  id in s'.world.records && s'.world.records[id] == s.world.records[id])
            && (forall id :: id in s.history.queued ==> id in s'.history.queued)
            && (forall id :: id in s.history.queued && id in s.history.sources ==>
                  id in s'.history.sources && s'.history.sources[id] == s.history.sources[id])
  {
    ObserveFrameOfRecords(s, path, started);
  }

  lemma SeeAndroidGuards(s: System, path: Path, started: Option<Id>, id: Id, f: Fingerprint)
    requires Enabled(s, SeeAndroid(path, started)) && Guarded(s, id, f)
    ensures Guarded(SeeAndroidStep(s, path, started), id, f)
  {
    ObserveFrame(s, path, started);
  }

  lemma ListPcGuards(s: System, id: Id, f: Fingerprint)
    requires s.phase.ListingPc? && Guarded(s, id, f)
    ensures Guarded(ListPcStep(s), id, f)
  {
  }

  lemma SeePcGuards(s: System, path: Path, id: Id, f: Fingerprint)
    requires Enabled(s, SeePc(path)) && Guarded(s, id, f)
    ensures Guarded(SeePcStep(s, path), id, f)
  {
  }

  lemma CopyGuards(s: System, id: Id, f: Fingerprint)
    requires Enabled(s, CopyTaken) && Guarded(s, id, f)
    ensures Guarded(CopyStep(s), id, f)
  {
  }

  lemma SpoolGuards(s: System, started: Option<Id>, id: Id, f: Fingerprint)
    requires Enabled(s, SpoolEnds(started)) && Guarded(s, id, f)
    ensures Guarded(SpoolStep(s, started), id, f)
  {
  }

  lemma PcGuards(s: System, e: Event, id: Id, f: Fingerprint)
    requires Enabled(s, e) && Guarded(s, id, f) && (e.ListPc? || e.SeePc? || e.CopyTaken? || e.SpoolEnds?)
    ensures Guarded(Apply(s, e), id, f)
  {
    match e
    case ListPc => ListPcGuards(s, id, f);
    case SeePc(path) => SeePcGuards(s, path, id, f);
    case CopyTaken => CopyGuards(s, id, f);
    case SpoolEnds(started) => SpoolGuards(s, started, id, f);
  }

  lemma ReconcileUpGuards(s: System, path: Path, id: Id, f: Fingerprint)
    requires Enabled(s, ReconcileUp(path)) && Guarded(s, id, f)
    ensures Guarded(ReconcileUpStep(s, path), id, f)
  {
  }

  /** The blocks that leave the PC table and the disk alone. */
  lemma TurnGuards(s: System, e: Event, id: Id, f: Fingerprint)
    requires Enabled(s, e) && Guarded(s, id, f) && Undisturbed(s, e) && PendingTracked(s)
    requires e.BeginScan? || e.EndDownloads? || e.EndUploads? || e.Finish? || e.ScanFails?
    ensures Guarded(Apply(s, e), id, f)
  {
    if e.BeginScan? && Awaited(s, id, f) { assert TracksSource(s, id); }
  }

  lemma TableGuards(s: System, e: Event, id: Id, f: Fingerprint)
    requires Enabled(s, e) && Guarded(s, id, f) && Undisturbed(s, e)
    requires e.DeletionEnds? || e.UploadStat? || e.ListAndroid? || e.EndAndroid? || e.EndPc?
    ensures Guarded(Apply(s, e), id, f)
  {
  }

  lemma WorldGuards(s: System, e: Event, id: Id, f: Fingerprint)
    requires Enabled(s, e) && Guarded(s, id, f) && Undisturbed(s, e)
    requires f in s.history.localMarks && f in s.history.delivered && s.history.delivered[f] == id
    requires IsWorldEvent(e) && f !in Apply(s, e).history.stray
    ensures Guarded(Apply(s, e), id, f)
  {
  }

  lemma DeliveryGuards(s: System, id: Id, path: Path, stat: Stat)
    requires Inv(s) && Enabled(s, DownloadDone(id, path, stat)) && Undisturbed(s, DownloadDone(id, path, stat))
    requires OnTime(s, id, path)
    ensures Guarded(Apply(s, DownloadDone(id, path, stat)), id, Fingerprint(path, stat))
  {
    assert TracksSource(s, id);
  }

  lemma GuardKept(s: System, e: Event, f: Fingerprint)
    requires Inv(s) && Enabled(s, e) && Undisturbed(s, e) && f in s.history.delivered
    requires f in s.history.localMarks && f !in s.history.stray && f !in Apply(s, e).history.stray
    ensures Guarded(Apply(s, e), s.history.delivered[f], f)
  {
    var id := s.history.delivered[f];
    if e.Reconcile? {
      ReconcileGuards(s, e.path, id, f);
    } else if e.SeeAndroid? {
      SeeAndroidGuards(s, e.path, e.started, id, f);
    } else if e.ReconcileUp? {
      ReconcileUpGuards(s, e.path, id, f);
    } else if e.ListPc? || e.SeePc? || e.CopyTaken? || e.SpoolEnds? {
      PcGuards(s, e, id, f);
    } else if IsWorldEvent(e) {
      WorldGuards(s, e, id, f);
    } else if e.DeletionEnds? || e.UploadStat? || e.ListAndroid? || e.EndAndroid? || e.EndPc? {
      TableGuards(s, e, id, f);
    } else {
      TurnGuards(s, e, id, f);
    }
  }

  // ---------------------------------------------------------------- the rest of the invariant

  lemma ReconcileRemembers(s: System, path: Path)
    requires Remembered(s) && Enabled(s, Reconcile(path))
    ensures Remembered(ReconcileStep(s, path))
  {
  }

  lemma UploadsRemember(s: System, e: Event)
    requires Remembered(s) && ListingRemembered(s) && Enabled(s, e)
    requires e.ReconcileUp? || e.UploadStat? || e.SpoolEnds? || e.CopyTaken?
    ensures Remembered(Apply(s, e))
  {
  }

  lemma ListPcRemembers(s: System)
    requires Remembered(s) && s.phase.ListingPc?
    ensures Remembered(ListPcStep(s))
  {
  }

  lemma SeePcRemembers(s: System, path: Path)
    requires Remembered(s) && ListingRemembered(s) && Enabled(s, SeePc(path))
    ensures Remembered(SeePcStep(s, path))
  {
  }

  lemma ListingRemembers(s: System, e: Event)
    requires Remembered(s) && ListingRemembered(s) && Enabled(s, e) && (e.ListPc? || e.SeePc? || e.EndPc?)
    ensures Remembered(Apply(s, e))
  {
    if e.ListPc? { ListPcRemembers(s); }
    if e.SeePc? { SeePcRemembers(s, e.path); }
  }

  lemma AndroidRemembers(s: System, e: Event)
    requires Remembered(s) && Enabled(s, e) && (e.ListAndroid? || e.SeeAndroid? || e.EndAndroid?)
    ensures Remembered(Apply(s, e))
  {
    if e.SeeAndroid? { ObserveFrame(s, e.path, e.started); }
  }

  lemma EditRemembers(s: System, path: Path, file: Option<Stat>)
    requires Remembered(s)
    ensures Remembered(Apply(s, EditLocal(path, file)))
  {
  }

  lemma DeliveryRemembers(s: System, id: Id, path: Path, stat: Stat)
    requires Remembered(s) && Enabled(s, DownloadDone(id, path, stat))
    ensures Remembered(Apply(s, DownloadDone(id, path, stat)))
  {
    var h, h' := s.history, Apply(s, DownloadDone(id, path, stat)).history;
    assert h'.delivered.Keys <= h'.localMarks;
  }

  lemma WorldBookkeeping(s: System, e: Event)
    requires Enabled(s, e) && IsWorldEvent(e)
    ensures var s' := Apply(s, e);
            && s'.core == s.core && s'.phase == s.phase && s'.history.sent == s.history.sent
            && (!e.DownloadDone? ==> s'.history.delivered == s.history.delivered)
            && (!e.DownloadDone? && !e.CancelledLate? ==> s'.history.stray == s.history.stray)
            && s.history.stray <= s'.history.stray
  {
  }

  lemma WorldRemembers(s: System, e: Event)
    requires Remembered(s) && Enabled(s, e) && IsWorldEvent(e)
    ensures Remembered(Apply(s, e))
  {
    if e.EditLocal? { EditRemembers(s, e.path, e.file); }
    else if e.DownloadDone? { DeliveryRemembers(s, e.id, e.path, e.stat); }
    else { WorldBookkeeping(s, e); }
  }

  lemma PhasesRemember(s: System, e: Event)
    requires Remembered(s) && Enabled(s, e) && Undisturbed(s, e)
    requires e.BeginScan? || e.DeletionEnds? || e.EndDownloads? || e.EndUploads? || e.Finish? || e.ScanFails?
    ensures Remembered(Apply(s, e))
  {
  }

  lemma RememberedKept(s: System, e: Event)
    requires Remembered(s) && ListingRemembered(s) && Enabled(s, e) && Undisturbed(s, e)
    ensures Remembered(Apply(s, e))
  {
    if e.Reconcile? { ReconcileRemembers(s, e.path); }
    else if e.ReconcileUp? || e.UploadStat? || e.SpoolEnds? || e.CopyTaken? { UploadsRemember(s, e); }
    else if e.ListPc? || e.SeePc? || e.EndPc? { ListingRemembers(s, e); }
    else if e.ListAndroid? || e.SeeAndroid? || e.EndAndroid? { AndroidRemembers(s, e); }
    else if IsWorldEvent(e) { WorldRemembers(s, e); }
    else { PhasesRemember(s, e); }
  }

  lemma ListingRememberedKept(s: System, e: Event)
    requires Remembered(s) && ListingRemembered(s) && Enabled(s, e) && Undisturbed(s, e)
    ensures ListingRemembered(Apply(s, e))
  {
  }

  lemma ScanHistory(s: System, e: Event)
    requires Enabled(s, e) && !IsWorldEvent(e)
    ensures var h, h' := s.history, Apply(s, e).history;
            && (!e.SpoolEnds? ==> h'.sent == h.sent) && h'.delivered == h.delivered && h'.stray == h.stray
  {
  }

  lemma ScanKeepsConfig(s: System, e: Event)
    requires Enabled(s, e) && Undisturbed(s, e) && !IsWorldEvent(e)
    ensures Apply(s, e).core.config == s.core.config
  {
  }

  lemma AndroidComesAfterTheBaseline(s: System, e: Event)
    requires Enabled(s, e) && !IsWorldEvent(e) && (s.phase.Android? ==> s.core.baselined)
    ensures Apply(s, e).phase.Android? ==> Apply(s, e).core.baselined
  {
    if !(e.ListAndroid? || e.SeeAndroid?) { assert !Apply(s, e).phase.Android?; }
  }

  /** What the steps do to the rest: nothing is sent but by a copy that is queued, nothing is delivered but by
      a finished download, and the baseline stands before any file is observed. */
  lemma Bookkeeping(s: System, e: Event)
    requires Enabled(s, e) && Undisturbed(s, e)
    requires s.phase.Android? ==> s.core.baselined
    ensures var s' := Apply(s, e);
            && s'.core.config == s.core.config
            && (s'.phase.Android? ==> s'.core.baselined)
            && (!e.SpoolEnds? ==> s'.history.sent == s.history.sent)
            && (!e.DownloadDone? ==> s'.history.delivered == s.history.delivered)
            && (!e.DownloadDone? && !e.CancelledLate? ==> s'.history.stray == s.history.stray)
            && s.history.stray <= s'.history.stray
  {
    if IsWorldEvent(e) {
      WorldBookkeeping(s, e);
    } else {
      ScanHistory(s, e);
      ScanKeepsConfig(s, e);
      AndroidComesAfterTheBaseline(s, e);
    }
  }

  lemma DeliveryAdds(s: System, id: Id, path: Path, stat: Stat)
    requires Remembered(s) && Enabled(s, DownloadDone(id, path, stat)) && Undisturbed(s, DownloadDone(id, path, stat))
    ensures var h, h' := s.history, Apply(s, DownloadDone(id, path, stat)).history;
            && h'.delivered == h.delivered[Fingerprint(path, stat) := id]
            && (forall f :: f in Timely(h') ==> f in Timely(h) || (f == Fingerprint(path, stat) && OnTime(s, id, path)))
  {
  }

  lemma ScanKeepsListed(s: System, e: Event)
    requires Inv(s) && Enabled(s, e) && (e.ListPc? || e.SeePc? || e.CopyTaken? || e.SpoolEnds?)
    ensures ListedAsOnDisk(Apply(s, e))
  {
    if e.SeePc? && Fingerprint(e.path, s.phase.listing[e.path]) in Timely(s.history) {
      DeliveredFileIsNotQueued(s, e.path);
    }
  }

  lemma DeliveryKeepsListed(s: System, id: Id, path: Path, stat: Stat)
    requires Inv(s) && Enabled(s, DownloadDone(id, path, stat)) && Undisturbed(s, DownloadDone(id, path, stat))
    ensures ListedAsOnDisk(Apply(s, DownloadDone(id, path, stat)))
  {
    DeliveryAdds(s, id, path, stat);
  }

  lemma WorldKeepsListed(s: System, e: Event)
    requires Inv(s) && Enabled(s, e) && Undisturbed(s, e) && IsWorldEvent(e)
    ensures ListedAsOnDisk(Apply(s, e))
  {
    if e.DownloadDone? {
      DeliveryKeepsListed(s, e.id, e.path, e.stat);
    } else {
      WorldBookkeeping(s, e);
      assert Timely(Apply(s, e).history) <= Timely(s.history);
    }
  }

  lemma OthersKeepListed(s: System, e: Event)
    requires Inv(s) && Enabled(s, e) && Undisturbed(s, e) && !IsWorldEvent(e)
    requires !(e.ListPc? || e.SeePc? || e.CopyTaken? || e.SpoolEnds?)
    ensures ListedAsOnDisk(Apply(s, e))
  {
  }

  lemma NothingTimelyIsSent(s: System, e: Event)
    requires Inv(s) && Enabled(s, e) && Undisturbed(s, e)
    ensures Apply(s, e).history.sent !! Timely(Apply(s, e).history)
  {
    Bookkeeping(s, e);
    if e.DownloadDone? { DeliveryAdds(s, e.id, e.path, e.stat); }
  }

  // ---------------------------------------------------------------- downloads the monitor waits for

  lemma SeeAndroidTracks(s: System, path: Path, started: Option<Id>, id: Id)
    requires PendingTracked(s) && Enabled(s, SeeAndroid(path, started)) && Undisturbed(s, SeeAndroid(path, started))
    requires Outstanding(SeeAndroidStep(s, path, started).history, id)
    ensures TracksSource(SeeAndroidStep(s, path, started), id)
  {
    if Outstanding(s.history, id) { assert TracksSource(s, id); }
  }

  lemma ReconcileTracks(s: System, path: Path, id: Id)
    requires PendingTracked(s) && Enabled(s, Reconcile(path)) && Outstanding(ReconcileStep(s, path).history, id)
    ensures TracksSource(ReconcileStep(s, path), id)
  {
    assert TracksSource(s, id);
  }

  lemma TableTracks(s: System, e: Event, id: Id)
    requires PendingTracked(s) && NoTransfersBeforeBaseline(s) && Enabled(s, e) && Undisturbed(s, e)
    requires Outstanding(s.history, id)
    requires e.DeletionEnds? || e.UploadStat? || e.ListAndroid? || e.EndAndroid? || e.Finish?
    ensures TracksSource(Apply(s, e), id)
  {
    assert TracksSource(s, id);
  }

  /** The steps that leave the Android table alone, and every record in place. */
  lemma OthersTrack(s: System, e: Event)
    requires PendingTracked(s) && Enabled(s, e) && !WritesAndroidTable(e)
    ensures PendingTracked(Apply(s, e))
  {
    var s' := Apply(s, e);
    AndroidTableStays(s, e);
    forall id | Outstanding(s'.history, id)
      ensures TracksSource(s', id)
    {
      assert TracksSource(s, id);
    }
  }

  lemma PendingTrackedKept(s: System, e: Event)
    requires PendingTracked(s) && NoTransfersBeforeBaseline(s) && Enabled(s, e) && Undisturbed(s, e)
    ensures PendingTracked(Apply(s, e))
  {
    if e.SeeAndroid? {
      forall id | Outstanding(Apply(s, e).history, id) ensures TracksSource(Apply(s, e), id) {
        SeeAndroidTracks(s, e.path, e.started, id);
      }
    } else if e.Reconcile? {
      forall id | Outstanding(Apply(s, e).history, id) ensures TracksSource(Apply(s, e), id) {
        ReconcileTracks(s, e.path, id);
      }
    } else if e.DeletionEnds? || e.UploadStat? || e.ListAndroid? || e.EndAndroid? || e.Finish? {
      assert Apply(s, e).history == s.history;
      forall id | Outstanding(s.history, id) ensures TracksSource(Apply(s, e), id) { TableTracks(s, e, id); }
    } else {
      OthersTrack(s, e);
    }
  }

  lemma AndroidTableKept(s: System, e: Event)
    requires NoTransfersBeforeBaseline(s) && Enabled(s, e) && (e.SeeAndroid? || e.ListAndroid? || e.EndAndroid?)
    requires s.phase.Android? ==> s.core.baselined
    ensures NoTransfersBeforeBaseline(Apply(s, e))
  {
  }

  lemma OtherTableKept(s: System, e: Event)
    requires NoTransfersBeforeBaseline(s) && Enabled(s, e) && Undisturbed(s, e)
    requires !(e.SeeAndroid? || e.ListAndroid? || e.EndAndroid?)
    ensures NoTransfersBeforeBaseline(Apply(s, e))
  {
  }

  // ---------------------------------------------------------------- every step, every run

  lemma StepKeeps(s: System, e: Event)
    requires Inv(s) && Enabled(s, e) && Undisturbed(s, e)
    ensures Inv(Apply(s, e))
  {
    var s' := Apply(s, e);
    Bookkeeping(s, e);
    RememberedKept(s, e);
    ListingRememberedKept(s, e);
    NothingTimelyIsSent(s, e);
    PendingTrackedKept(s, e);
    if e.SeeAndroid? || e.ListAndroid? || e.EndAndroid? { AndroidTableKept(s, e); } else { OtherTableKept(s, e); }
    if IsWorldEvent(e) { WorldKeepsListed(s, e); }
    else if e.ListPc? || e.SeePc? || e.CopyTaken? || e.SpoolEnds? { ScanKeepsListed(s, e); }
    else { OthersKeepListed(s, e); }
    GuardsKept(s, e);
  }

  lemma GuardsKept(s: System, e: Event)
    requires Inv(s) && Enabled(s, e) && Undisturbed(s, e)
    ensures var s' := Apply(s, e);
            forall f :: f in s'.history.delivered && f !in s'.history.stray ==> Guarded(s', s'.history.delivered[f], f)
  {
    var s' := Apply(s, e);
    Bookkeeping(s, e);
    if e.DownloadDone? { DeliveryAdds(s, e.id, e.path, e.stat); }
    forall f | f in s'.history.delivered && f !in s'.history.stray
      ensures Guarded(s', s'.history.delivered[f], f)
    {
      if e.DownloadDone? && f == Fingerprint(e.path, e.stat) {
        DeliveryGuards(s, e.id, e.path, e.stat);
      } else {
        GuardKept(s, e, f);
      }
    }
  }

  ghost predicate UndisturbedRun(s: System, events: seq<Event>)
    requires Legal(s, events)
    decreases |events|
  {
    events == [] || (Undisturbed(s, events[0]) && UndisturbedRun(Apply(s, events[0]), events[1..]))
  }

  lemma {:induction false} RunKeeps(s: System, events: seq<Event>)
    requires Inv(s) && Legal(s, events) && UndisturbedRun(s, events)
    ensures Inv(Execute(s, events))
    decreases |events|
  {
    if events != [] {
      StepKeeps(s, events[0]);
      RunKeeps(Apply(s, events[0]), events[1..]);
    }
  }

  /** Over every run, whatever the interleaving of scans, transfers and edits: a delivered version is sent
      back only if it is off the monitor's books. */
  lemma OnlyStrayDeliveriesBounceBack(s: System, events: seq<Event>)
    requires Inv(s) && Legal(s, events) && UndisturbedRun(s, events)
    ensures var h := Execute(s, events).history; h.sent * h.delivered.Keys <= h.stray
  {
    RunKeeps(s, events);
  }

  /** Nothing strays in this step: a delivery is of a download the monitor waits for, at a path no scan is about to
      copy, and a late `cancel` finds the version handled. */
  predicate StaysOnTheBooks(s: System, e: Event) {
    match e
    case DownloadDone(id, path, _) => OnTime(s, id, path)
    case CancelledLate(id) => Unhandled(s, id) == {}
    case _ => true
  }

  ghost predicate AllOnTheBooks(s: System, events: seq<Event>)
    requires Legal(s, events)
    decreases |events|
  {
    events == [] || (StaysOnTheBooks(s, events[0]) && AllOnTheBooks(Apply(s, events[0]), events[1..]))
  }

  lemma NothingStrays(s: System, e: Event)
    requires Enabled(s, e) && StaysOnTheBooks(s, e)
    ensures Apply(s, e).history.stray == s.history.stray
  {
    if IsWorldEvent(e) { WorldBookkeeping(s, e); } else { ScanHistory(s, e); }
  }

  /** If nothing strays, no version that a download put into the watched folder is ever sent. */
  lemma {:induction false} NoDownloadBouncesBack(s: System, events: seq<Event>)
    requires Inv(s) && Legal(s, events) && UndisturbedRun(s, events) && AllOnTheBooks(s, events)
             && s.history.stray == {}
    ensures Execute(s, events).history.sent !! Execute(s, events).history.delivered.Keys
    decreases |events|
  {
    if events == [] {
      assert Timely(s.history) == s.history.delivered.Keys;
    } else {
      StepKeeps(s, events[0]);
      NothingStrays(s, events[0]);
      NoDownloadBouncesBack(Apply(s, events[0]), events[1..]);
    }
  }

  /** What the next copy is worth: with the monitor about to copy a path, the version it takes, and may
      send, is a delivered one exactly if it was delivered astray. */
  lemma CopyBouncesExactlyIfStray(s: System)
    requires Inv(s) && Enabled(s, CopyTaken) && s.phase.file.path in s.world.local
    ensures var f := Fingerprint(s.phase.file.path, s.world.local[s.phase.file.path]);
            && CopyStep(s).phase.Copied? && CopyStep(s).phase.copy == f.stat
            && (f in s.history.delivered.Keys <==> f in s.history.stray)
  {
  }

  // ---------------------------------------------------------------- what the hypotheses exclude

  /** A transfer id leaves the Android table in exactly these ways: its source was seen with another
      fingerprint, an upload landed on the source, trimming dropped the entry, or the transfer ended
      without success. */
  lemma HowAnIdIsLost(s: System, e: Event, id: Id, p: Path)
    requires Enabled(s, e) && NoTransfersBeforeBaseline(s) && Tracks(s, id, p) && id in s.world.records
    ensures !Tracks(Apply(s, e), id, p) <==>
            match e
            case SeeAndroid(path, _) => path == p && s.core.observed[p].mark != Fingerprint(p, s.phase.listing[p])
            case UploadStat => s.phase.destination == p && p in s.world.remote
            case Finish(core) => !(p in core.observed && core.observed[p].transfer == Some(id))
            case Reconcile(path) => path == p && s.world.records[id].outcome.Ended?
            case _ => false
  {
    if !WritesAndroidTable(e) { AndroidTableStays(s, e); }
  }
}
