/** The folder promises to upload files the user modifies. At the destination of a finished download it
    does not: every scan marks whatever is there before the PC folder is listed, and a file has to be seen
    in two scans to be queued. So no edit there is sent while the download's entry lives. */
module SwallowedEdits {
  import opened Wrappers
  import opened MonitorModel
  import opened MonitorSystem
  import opened LoopFreedom
  import opened MonitorTheorems

  /** The entry of `p` still carries a download that succeeded and went to `x`. */
  ghost predicate Carries(s: System, p: Path, x: Path) {
    && p in s.core.observed && s.core.observed[p].transfer.Some? && s.core.observed[p].transfer.value in s.world.records
    && s.world.records[s.core.observed[p].transfer.value] == Transfer(Succeeded, x)
  }

  /** Reconciling an entry takes an edit for handled exactly if it finds it at the destination of the
      entry's finished download. */
  lemma EditIsSwallowedExactlyIfFound(s: System, path: Path, f: Fingerprint)
    requires Enabled(s, Reconcile(path)) && f !in s.core.processedLocal
    ensures f in ReconcileStep(s, path).core.processedLocal <==> Carries(s, path, f.path) && OnDisk(s.world, f)
  {
  }

  // ---------------------------------------------------------------- the version the PC table shows

  ghost predicate Known(s: System, x: Path) {
    && (x in s.core.localObserved ==>
          s.core.localObserved[x].mark.path == x && s.core.localObserved[x].mark in s.history.localMarks)
    && (x in s.world.local ==> Fingerprint(x, s.world.local[x]) in s.history.localMarks)
    && (ScansPc(s.phase) && x in s.phase.listing ==> Fingerprint(x, s.phase.listing[x]) in s.history.localMarks)
  }

  /** Where the scan stands with a version that was seen once: until the entry's turn it may be on disk, from
      then until the PC folder is listed it is not, and it is not what a listing at work shows. */
  ghost predicate Overtaken(s: System, f: Fingerprint, p: Path) {
    s.phase.Idle? || s.phase.Finishing?
    || (if s.phase.Downloads? || s.phase.Deleting? then p in s.phase.left || !OnDisk(s.world, f)
        else if ScansPc(s.phase) then !StillListed(s.phase, f)
        else !OnDisk(s.world, f))
  }

  /** The version in the PC table is handled, or was seen only once and will be overtaken. */
  ghost predicate Swallows(s: System, p: Path, x: Path) {
    && Known(s, x)
    && !(s.phase.Copying? && s.phase.file.path == x) && !(s.phase.Copied? && s.phase.file.path == x)
    && (x in s.core.localObserved ==>
          var e := s.core.localObserved[x];
          e.mark in s.core.processedLocal || (e.sightings <= 1 && e.transfer.None? && Overtaken(s, e.mark, p)))
  }

  /** What is written to `x` is a new version, and trimming drops no mark. */
  ghost predicate FreshAt(s: System, e: Event, x: Path) {
    match e
    case EditLocal(path, file) => path == x && file.Some? ==> Fingerprint(path, file.value) !in s.history.localMarks
    case DownloadDone(_, path, stat) => path == x ==> Fingerprint(path, stat) !in s.history.localMarks
    case Finish(core) => Thinned(s.core, core)
    case _ => true
  }

  lemma ReconcileSwallows(s: System, path: Path, p: Path, x: Path)
    requires Swallows(s, p, x) && Carries(s, p, x) && Enabled(s, Reconcile(path))
    ensures Swallows(ReconcileStep(s, path), p, x)
  {
  }

  /** A version that the table does not show unhandled is seen for the first time, and not queued. */
  lemma FirstSighting(table: Table, marks: Marks, config: Config, f: Fingerprint, now: real)
    requires config.Valid() && (f.path in table && table[f.path].mark == f ==> f in marks)
    ensures var e := Observe(table, marks, config, PC_RESTING, f, now);
            && e.mark == f && (f in marks || (e.sightings <= 1 && e.transfer.None?))
            && !Queues(table, marks, config, f, now)
  {
  }

  /** A scan looks at another file of the PC folder. */
  lemma SeeOtherSwallows(s: System, path: Path, p: Path, x: Path)
    requires Swallows(s, p, x) && Enabled(s, SeePc(path)) && path != x
    ensures Swallows(SeePcStep(s, path), p, x)
  {
  }

  lemma SeePcSwallows(s: System, path: Path, p: Path, x: Path)
    requires Swallows(s, p, x) && Enabled(s, SeePc(path)) && s.core.config.Valid()
    ensures Swallows(SeePcStep(s, path), p, x)
  {
    if path == x {
      FirstSighting(s.core.localObserved, s.core.processedLocal, s.core.config, Fingerprint(x, s.phase.listing[x]),
                    s.now);
      assert SeePcStep(s, path).core == ObservePc(s.core, Fingerprint(x, s.phase.listing[x]), s.now);
    } else {
      SeeOtherSwallows(s, path, p, x);
    }
  }

  lemma ListPcSwallows(s: System, p: Path, x: Path)
    requires Swallows(s, p, x) && s.phase.ListingPc?
    ensures Swallows(ListPcStep(s), p, x)
  {
  }

  lemma ReconcileUpSwallows(s: System, path: Path, p: Path, x: Path)
    requires Swallows(s, p, x) && Enabled(s, ReconcileUp(path))
    ensures Swallows(ReconcileUpStep(s, path), p, x)
  {
  }

  lemma CopiesSwallow(s: System, e: Event, p: Path, x: Path)
    requires Swallows(s, p, x) && Enabled(s, e) && (e.CopyTaken? || e.SpoolEnds?)
    ensures Swallows(Apply(s, e), p, x)
  {
  }

  lemma EndPcSwallows(s: System, p: Path, x: Path)
    requires Swallows(s, p, x) && Enabled(s, EndPc)
    ensures Swallows(Apply(s, EndPc), p, x)
  {
  }

  lemma WorldSwallows(s: System, e: Event, p: Path, x: Path)
    requires Swallows(s, p, x) && Enabled(s, e) && FreshAt(s, e, x) && IsWorldEvent(e)
    ensures Swallows(Apply(s, e), p, x)
  {
  }

  lemma PhasesSwallow(s: System, e: Event, p: Path, x: Path)
    requires Swallows(s, p, x) && Carries(s, p, x) && Enabled(s, e) && FreshAt(s, e, x)
    requires e.BeginScan? || e.EndDownloads? || e.EndUploads? || e.Finish? || e.ScanFails? || e.DeletionEnds?
             || e.UploadStat?
             || e.ListAndroid? || e.EndAndroid?
    ensures Swallows(Apply(s, e), p, x)
  {
  }

  lemma SeeAndroidSwallows(s: System, path: Path, started: Option<Id>, p: Path, x: Path)
    requires Swallows(s, p, x) && Enabled(s, SeeAndroid(path, started))
    ensures Swallows(SeeAndroidStep(s, path, started), p, x)
  {
    ObserveFrame(s, path, started);
  }

  lemma SwallowsKept(s: System, e: Event, p: Path, x: Path)
    requires Swallows(s, p, x) && Carries(s, p, x) && s.core.config.Valid() && Enabled(s, e) && FreshAt(s, e, x)
    ensures Swallows(Apply(s, e), p, x)
  {
    if e.Reconcile? { ReconcileSwallows(s, e.path, p, x); }
    else if e.SeePc? { SeePcSwallows(s, e.path, p, x); }
    else if e.ListPc? { ListPcSwallows(s, p, x); }
    else if e.ReconcileUp? { ReconcileUpSwallows(s, e.path, p, x); }
    else if e.CopyTaken? || e.SpoolEnds? { CopiesSwallow(s, e, p, x); }
    else if e.EndPc? { EndPcSwallows(s, p, x); }
    else if e.SeeAndroid? { SeeAndroidSwallows(s, e.path, e.started, p, x); }
    else if IsWorldEvent(e) { WorldSwallows(s, e, p, x); }
    else { PhasesSwallow(s, e, p, x); }
  }

  /** Only a copy of the path adds a version of it to what was sent. */
  lemma NothingIsSentFrom(s: System, e: Event, x: Path)
    requires Enabled(s, e) && !(s.phase.Copied? && s.phase.file.path == x) && FreshAt(s, e, x)
    ensures forall f :: f in Apply(s, e).history.sent && f.path == x ==> f in s.history.sent
  {
    if IsWorldEvent(e) { WorldBookkeeping(s, e); } else { ScanHistory(s, e); }
  }

  lemma ConfigStays(s: System, e: Event, x: Path)
    requires Enabled(s, e) && FreshAt(s, e, x)
    ensures Apply(s, e).core.config == s.core.config
  {
    if IsWorldEvent(e) { WorldBookkeeping(s, e); }
  }

  // ---------------------------------------------------------------- whole runs

  ghost predicate CarriesThroughout(s: System, events: seq<Event>, p: Path, x: Path)
    requires Legal(s, events)
    decreases |events|
  {
    events == [] || (Carries(s, p, x) && FreshAt(s, events[0], x)
                     && CarriesThroughout(Apply(s, events[0]), events[1..], p, x))
  }

  lemma {:induction false} SwallowsOverRuns(s: System, events: seq<Event>, p: Path, x: Path)
    requires Swallows(s, p, x) && s.core.config.Valid() && Legal(s, events) && CarriesThroughout(s, events, p, x)
    ensures forall f :: f in Execute(s, events).history.sent && f.path == x ==> f in s.history.sent
    decreases |events|
  {
    if events != [] {
      SwallowsKept(s, events[0], p, x);
      NothingIsSentFrom(s, events[0], x);
      ConfigStays(s, events[0], x);
      SwallowsOverRuns(Apply(s, events[0]), events[1..], p, x);
    }
  }

  /** From the step that reconciles a finished download on: whatever the user writes to its destination, no
      version of that file is sent as long as the entry keeps its transfer. */
  lemma EditsOfDownloadedFilesAreSwallowed(s: System, p: Path, x: Path, events: seq<Event>)
    requires Inv(s) && Enabled(s, Reconcile(p)) && Carries(s, p, x) && x in s.world.local
    requires Legal(ReconcileStep(s, p), events) && CarriesThroughout(ReconcileStep(s, p), events, p, x)
    ensures forall f :: f in Execute(ReconcileStep(s, p), events).history.sent && f.path == x ==> f in s.history.sent
  {
    assert Swallows(ReconcileStep(s, p), p, x);
    SwallowsOverRuns(ReconcileStep(s, p), events, p, x);
  }

  /** Without eviction the version found then stays handled whatever becomes of the entry. */
  lemma AFoundEditIsNeverQueued(s: System, path: Path, events: seq<Event>, f: Fingerprint)
    requires Enabled(s, Reconcile(path)) && Carries(s, path, f.path) && OnDisk(s.world, f)
    requires Legal(ReconcileStep(s, path), events) && NoMarkEvictedRun(ReconcileStep(s, path), events)
    ensures var s' := Execute(ReconcileStep(s, path), events);
            !Queues(s'.core.localObserved, s'.core.processedLocal, s'.core.config, f, s'.now)
    ensures ReconcileStep(s, path).core.observed[path].transfer == s.core.observed[path].transfer
  {
    HandledIsNeverQueued(ReconcileStep(s, path), events, f);
  }
}
