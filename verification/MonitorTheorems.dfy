/** What holds of every run of the watched-folder monitor besides loop freedom: files are queued only
    when they have been stable, handled versions stay handled, and reconciling is safe to repeat. */
module MonitorTheorems {
  import opened Wrappers
  import opened MonitorModel
  import opened MonitorSystem

  // ---------------------------------------------------------------- stability before queueing

  /** The last `n` sightings all show `stat`, and the first of them was at `since`. */
  ghost predicate Streak(seen: seq<Seen>, n: nat, stat: Stat, since: real) {
    && 1 <= n <= |seen|
    && (forall i :: |seen| - n <= i < |seen| ==> seen[i].stat == stat)
    && seen[|seen| - n].at == since
  }

  ghost predicate EntryEarned(e: Entry, marks: Marks, log: Log) {
    e.mark in marks || (e.mark.path in log && Streak(log[e.mark.path], e.sightings, e.mark.stat, e.lastChanged))
  }

  /** Every entry of a version not handled yet has counted real sightings of that very version. */
  ghost predicate Earned(table: Table, marks: Marks, log: Log) {
    forall p :: p in table ==> table[p].mark.path == p && EntryEarned(table[p], marks, log)
  }

  ghost predicate StabilityInv(s: System) {
    Earned(s.core.observed, s.core.processed, s.history.androidLog)
    && Earned(s.core.localObserved, s.core.processedLocal, s.history.pcLog)
  }

  lemma StreakGrows(seen: seq<Seen>, n: nat, stat: Stat, since: real, now: real)
    requires Streak(seen, n, stat, since)
    ensures Streak(seen + [Seen(stat, now)], n + 1, stat, since)
  {
  }

  /** One observation, on either side, of a version that is not handled. */
  lemma SightingEarned(table: Table, marks: Marks, log: Log, f: Fingerprint, now: real)
    requires Earned(table, marks, log)
    ensures EntryEarned(Sighted(table, f, now), marks, Note(log, f.path, f.stat, now))
    ensures f !in marks ==> Streak(Note(log, f.path, f.stat, now)[f.path], Sighted(table, f, now).sightings, f.stat,
                                   Sighted(table, f, now).lastChanged)
  {
    var before := if f.path in log then log[f.path] else [];
    if f !in marks && f.path in table && table[f.path].mark == f {
      StreakGrows(before, table[f.path].sightings, f.stat, table[f.path].lastChanged, now);
    }
  }

  /** The answer to "when is a file queued": only when its last sightings, at least as many as
      configured, all showed one size and time, the first of them at least the configured time ago,
      and no earlier failure asks to wait longer. */
  lemma QueuedOnlyWhenStable(table: Table, marks: Marks, log: Log, config: Config, f: Fingerprint, now: real)
    requires Earned(table, marks, log) && Queues(table, marks, config, f, now)
    ensures var seen := Note(log, f.path, f.stat, now)[f.path];
            exists n: nat, since: real ::
              n >= config.observations && Streak(seen, n, f.stat, since) && now - since >= config.seconds
    ensures f.path in table && table[f.path].mark == f ==> now >= table[f.path].nextRetry
    ensures f !in marks
  {
    SightingEarned(table, marks, log, f, now);
    var e := Sighted(table, f, now);
    assert Streak(Note(log, f.path, f.stat, now)[f.path], e.sightings, f.stat, e.lastChanged);
  }

  lemma ObserveEarned(table: Table, marks: Marks, config: Config, resting: set<Status>, log: Log, f: Fingerprint,
                      now: real)
    requires Earned(table, marks, log)
    ensures Earned(table[f.path := Observe(table, marks, config, resting, f, now)], marks,
                   Note(log, f.path, f.stat, now))
  {
    SightingEarned(table, marks, log, f, now);
  }

  /** An entry may change in anything but its version and its count. */
  lemma UpdateEarned(table: Table, marks: Marks, log: Log, p: Path, e: Entry, marks': Marks)
    requires Earned(table, marks, log) && marks.Keys <= marks'.Keys
    requires e.mark.path == p
    requires e.mark in marks' || (p in table && e.mark == table[p].mark && e.sightings == table[p].sightings
                                  && e.lastChanged == table[p].lastChanged)
    ensures Earned(table[p := e], marks', log)
  {
  }

  lemma BaselineEarned(table: Table, marks: Marks, log: Log, listing: map<Path, Stat>, now: real, n: nat)
    requires Earned(table, marks, log)
    ensures Earned(table + BaselineTable(listing, now, n), marks + BaselineMarks(listing, now), log)
  {
  }

  lemma ReconcileEarned(s: System, path: Path)
    requires StabilityInv(s) && Enabled(s, Reconcile(path))
    ensures StabilityInv(ReconcileStep(s, path))
  {
    var c := s.core;
    var e := c.observed[path];
    var record := Record(s.world, e.transfer);
    var found := if Arrived(record) then Found(s.world, record) else None;
    var c' := ReconcileStep(s, path).core;
    UpdateEarned(c.observed, c.processed, s.history.androidLog, path, ReconciledEntry(e, record, s.now), c'.processed);
    if found.Some? {
      var f := Fingerprint(record.value.destination, found.value);
      UpdateEarned(c.localObserved, c.processedLocal, s.history.pcLog, f.path, c'.localObserved[f.path],
                   c'.processedLocal);
    }
  }

  lemma UploadsEarned(s: System, e: Event)
    requires StabilityInv(s) && Enabled(s, e) && (e.ReconcileUp? || e.UploadStat?)
    ensures StabilityInv(Apply(s, e))
  {
    var c, c' := s.core, Apply(s, e).core;
    if e.ReconcileUp? {
      UpdateEarned(c.localObserved, c.processedLocal, s.history.pcLog, e.path, c'.localObserved[e.path],
                   c'.processedLocal);
    } else if s.phase.destination in s.world.remote {
      var p := s.phase.destination;
      UpdateEarned(c.observed, c.processed, s.history.androidLog, p, c'.observed[p], c'.processed);
    }
  }

  lemma SeeAndroidEarned(s: System, path: Path, started: Option<Id>)
    requires StabilityInv(s) && Enabled(s, SeeAndroid(path, started))
    ensures StabilityInv(SeeAndroidStep(s, path, started))
  {
    var f := Fingerprint(path, s.phase.listing[path]);
    var log := Note(s.history.androidLog, path, f.stat, s.now);
    ObserveEarned(s.core.observed, s.core.processed, s.core.config, ANDROID_RESTING, s.history.androidLog, f, s.now);
    var seen := ObserveAndroid(s.core, f, s.now);
    UpdateEarned(seen.observed, seen.processed, log, path, AnsweredEntry(seen.observed[path], started, s.now),
                 seen.processed);
  }

  lemma SeePcEarned(s: System, path: Path)
    requires StabilityInv(s) && Enabled(s, SeePc(path))
    ensures StabilityInv(SeePcStep(s, path))
  {
    var f := Fingerprint(path, s.phase.listing[path]);
    ObserveEarned(s.core.localObserved, s.core.processedLocal, s.core.config, PC_RESTING, s.history.pcLog, f, s.now);
  }

  lemma OtherEarned(s: System, e: Event)
    requires StabilityInv(s) && Enabled(s, e) && NoMarkEvicted(s, e)
    requires e.DeletionEnds? || e.ListAndroid? || e.EndAndroid? || e.ListPc? || e.SpoolEnds? || e.EndPc? || e.Finish?
    ensures StabilityInv(Apply(s, e))
  {
    var c, c' := s.core, Apply(s, e).core;
    if e.DeletionEnds? {
      UpdateEarned(c.observed, c.processed, s.history.androidLog, s.phase.path, c'.observed[s.phase.path], c.processed);
    } else if e.SpoolEnds? {
      var p := s.phase.file.path;
      UpdateEarned(c.localObserved, c.processedLocal, s.history.pcLog, p, c'.localObserved[p], c.processedLocal);
    } else if e.ListAndroid? {
      BaselineEarned(c.observed, c.processed, s.history.androidLog, Visible(s.world.remote), s.now,
                     c.config.observations);
    } else if e.ListPc? {
      BaselineEarned(c.localObserved, c.processedLocal, s.history.pcLog, Visible(s.world.local), s.now,
                     c.config.observations);
    }
  }

  lemma StabilityKept(s: System, e: Event)
    requires StabilityInv(s) && Enabled(s, e) && NoMarkEvicted(s, e)
    ensures StabilityInv(Apply(s, e))
  {
    if e.Reconcile? { ReconcileEarned(s, e.path); }
    else if e.ReconcileUp? || e.UploadStat? { UploadsEarned(s, e); }
    else if e.SeeAndroid? { SeeAndroidEarned(s, e.path, e.started); }
    else if e.SeePc? { SeePcEarned(s, e.path); }
    else if e.DeletionEnds? || e.ListAndroid? || e.EndAndroid? || e.ListPc? || e.SpoolEnds? || e.EndPc? || e.Finish? {
      OtherEarned(s, e);
    }
  }

  ghost predicate NoMarkEvictedRun(s: System, events: seq<Event>)
    requires Legal(s, events)
    decreases |events|
  {
    events == [] || (NoMarkEvicted(s, events[0]) && NoMarkEvictedRun(Apply(s, events[0]), events[1..]))
  }

  lemma InitialStability(config: Config, remote: map<Path, Stat>, local: map<Path, Stat>)
    ensures StabilityInv(Initial(config, remote, local))
  {
  }

  /** Over every run: whatever a scan queues, in either direction, has been stable. */
  lemma {:induction false} QueuedFilesWereStable(s: System, events: seq<Event>)
    requires StabilityInv(s) && Legal(s, events) && NoMarkEvictedRun(s, events)
    ensures var s' := Execute(s, events);
            && StabilityInv(s')
            && (forall path, started :: Enabled(s', SeeAndroid(path, started)) ==>
                 StableOrSkipped(s'.core.observed, s'.core.processed, s'.history.androidLog, s'.core.config,
                                 Fingerprint(path, s'.phase.listing[path]), s'.now))
            && (forall path :: Enabled(s', SeePc(path)) ==>
                 StableOrSkipped(s'.core.localObserved, s'.core.processedLocal, s'.history.pcLog, s'.core.config,
                                 Fingerprint(path, s'.phase.listing[path]), s'.now))
    decreases |events|
  {
    if events != [] {
      StabilityKept(s, events[0]);
      QueuedFilesWereStable(Apply(s, events[0]), events[1..]);
    } else {
      forall path, started | Enabled(s, SeeAndroid(path, started))
        ensures StableOrSkipped(s.core.observed, s.core.processed, s.history.androidLog, s.core.config,
                                Fingerprint(path, s.phase.listing[path]), s.now)
      {
        Decided(s.core.observed, s.core.processed, s.history.androidLog, s.core.config,
                Fingerprint(path, s.phase.listing[path]), s.now);
      }
      forall path | Enabled(s, SeePc(path))
        ensures StableOrSkipped(s.core.localObserved, s.core.processedLocal, s.history.pcLog, s.core.config,
                                Fingerprint(path, s.phase.listing[path]), s.now)
      {
        Decided(s.core.localObserved, s.core.processedLocal, s.history.pcLog, s.core.config,
                Fingerprint(path, s.phase.listing[path]), s.now);
      }
    }
  }

  /** If this observation queues the file, its sightings have shown one version for long enough. */
  ghost predicate StableOrSkipped(table: Table, marks: Marks, log: Log, config: Config, f: Fingerprint, now: real) {
    Queues(table, marks, config, f, now) ==>
      exists n: nat, since: real ::
        n >= config.observations && Streak(Note(log, f.path, f.stat, now)[f.path], n, f.stat, since)
          && now - since >= config.seconds
  }

  lemma Decided(table: Table, marks: Marks, log: Log, config: Config, f: Fingerprint, now: real)
    requires Earned(table, marks, log)
    ensures StableOrSkipped(table, marks, log, config, f, now)
  {
    if Queues(table, marks, config, f, now) { QueuedOnlyWhenStable(table, marks, log, config, f, now); }
  }

  // ---------------------------------------------------------------- handled versions stay handled

  lemma AndroidMarksStay(s: System, e: Event)
    requires Enabled(s, e) && NoMarkEvicted(s, e)
    ensures s.core.processed.Keys <= Apply(s, e).core.processed.Keys
  {
    if !WritesAndroidTable(e) { AndroidTableStays(s, e); }
  }

  lemma PcMarksStay(s: System, e: Event)
    requires Enabled(s, e) && NoMarkEvicted(s, e)
    ensures s.core.processedLocal.Keys <= Apply(s, e).core.processedLocal.Keys
  {
    if !WritesPcTable(e) { PcTableStays(s, e); }
  }

  lemma StepKeepsHandled(s: System, e: Event)
    requires Enabled(s, e) && NoMarkEvicted(s, e)
    ensures s.core.processed.Keys <= Apply(s, e).core.processed.Keys
    ensures s.core.processedLocal.Keys <= Apply(s, e).core.processedLocal.Keys
  {
    AndroidMarksStay(s, e);
    PcMarksStay(s, e);
  }

  /** A version once handled is never queued in any later scan, in either direction. */
  lemma {:induction false} HandledIsNeverQueued(s: System, events: seq<Event>, f: Fingerprint)
    requires Legal(s, events) && NoMarkEvictedRun(s, events)
    ensures var s' := Execute(s, events);
            && (f in s.core.processed ==>
                f in s'.core.processed && !Queues(s'.core.observed, s'.core.processed, s'.core.config, f, s'.now))
            && (f in s.core.processedLocal ==> f in s'.core.processedLocal
                                               && !Queues(s'.core.localObserved, s'.core.processedLocal, s'.core.config,
                                                          f, s'.now))
    decreases |events|
  {
    if events != [] {
      StepKeepsHandled(s, events[0]);
      HandledIsNeverQueued(Apply(s, events[0]), events[1..], f);
    }
  }

  /** A file that was there when the baseline was taken is not queued in any later scan as long as its
      size and time stay the same. */
  lemma BaselineIsNeverQueued(s: System, events: seq<Event>, path: Path)
    requires s.phase.ListingAndroid? && !s.core.baselined && !s.core.config.includeExisting
    requires path in Visible(s.world.remote)
    requires Legal(ListAndroidStep(s), events) && NoMarkEvictedRun(ListAndroidStep(s), events)
    ensures var s' := Execute(ListAndroidStep(s), events);
            !Queues(s'.core.observed, s'.core.processed, s'.core.config, Fingerprint(path, s.world.remote[path]),
                    s'.now)
  {
    var f := Fingerprint(path, s.world.remote[path]);
    assert f in BaselineMarks(Visible(s.world.remote), s.now);
    HandledIsNeverQueued(ListAndroidStep(s), events, f);
  }

  lemma PcBaselineIsNeverQueued(s: System, events: seq<Event>, path: Path)
    requires s.phase.ListingPc? && !s.core.pcBaselined && !s.core.config.includeExistingPc
    requires path in Visible(s.world.local)
    requires Legal(ListPcStep(s), events) && NoMarkEvictedRun(ListPcStep(s), events)
    ensures var s' := Execute(ListPcStep(s), events);
            !Queues(s'.core.localObserved, s'.core.processedLocal, s'.core.config,
                    Fingerprint(path, s.world.local[path]), s'.now)
  {
    var f := Fingerprint(path, s.world.local[path]);
    assert f in BaselineMarks(Visible(s.world.local), s.now);
    HandledIsNeverQueued(ListPcStep(s), events, f);
  }

  // ---------------------------------------------------------------- reconciling again and again

  ghost predicate IdOk(e: Entry, p: Path, marks: Marks, queued: set<Id>, counted: set<Id>, asked: set<Id>,
                       deleting: Option<Path>) {
    e.transfer.Some? ==>
      && e.transfer.value in queued
      && (e.transfer.value in counted ==> e.mark in marks)
      && (e.transfer.value in asked ==> !e.deletion.NotTried? || deleting == Some(p))
  }

  /** Transfer ids are distinct, came from the queue, and remember whether they were counted and
      whether the deletion of their source was asked for. */
  ghost predicate TableOk(table: Table, marks: Marks, queued: set<Id>, counted: set<Id>, asked: set<Id>,
                          deleting: Option<Path>) {
    && (forall p :: p in table ==> IdOk(table[p], p, marks, queued, counted, asked, deleting))
    && (forall p, q :: p in table && q in table && p != q && table[p].transfer.Some? ==>
        table[p].transfer != table[q].transfer)
  }

  function DeletingPath(phase: Phase): Option<Path> { if phase.Deleting? then Some(phase.path) else None }

  ghost predicate CountInv(s: System) {
    && s.core.downloadsCompleted == |s.history.counted| && s.core.downloadsQueued == |s.history.queued|
    && s.history.counted <= s.history.queued && s.history.deletionAsked <= s.history.queued
    && TableOk(s.core.observed, s.core.processed, s.history.queued, s.history.counted, s.history.deletionAsked,
               DeletingPath(s.phase))
  }

  lemma InitialCount(config: Config, remote: map<Path, Stat>, local: map<Path, Stat>)
    ensures CountInv(Initial(config, remote, local))
  {
  }

  /** One entry changes without taking on an id of another; what is newly counted or asked is its own. */
  lemma EntryUpdateKeeps(table: Table, marks: Marks, queued: set<Id>, counted: set<Id>, asked: set<Id>,
                         deleting: Option<Path>,
                         p: Path, e: Entry, marks': Marks, queued': set<Id>, counted': set<Id>, asked': set<Id>,
                         deleting': Option<Path>)
    requires TableOk(table, marks, queued, counted, asked, deleting)
    requires marks.Keys <= marks'.Keys && queued <= queued'
    requires IdOk(e, p, marks', queued', counted', asked', deleting')
    requires e.transfer.Some? ==> (p in table && e.transfer == table[p].transfer) || e.transfer.value !in queued
    requires counted' == counted
             || (p in table && table[p].transfer.Some? && counted' == counted + {table[p].transfer.value})
    requires asked' == asked || (p in table && table[p].transfer.Some? && asked' == asked + {table[p].transfer.value})
    requires deleting == None || deleting == Some(p)
    ensures TableOk(table[p := e], marks', queued', counted', asked', deleting')
  {
  }

  lemma ReconcileCounts(s: System, path: Path)
    requires CountInv(s) && Enabled(s, Reconcile(path))
    ensures CountInv(ReconcileStep(s, path))
  {
    var e, s' := s.core.observed[path], ReconcileStep(s, path);
    assert IdOk(e, path, s.core.processed, s.history.queued, s.history.counted, s.history.deletionAsked, None);
    EntryUpdateKeeps(s.core.observed, s.core.processed, s.history.queued, s.history.counted, s.history.deletionAsked,
                     None,
                     path, s'.core.observed[path], s'.core.processed, s.history.queued, s'.history.counted,
                     s'.history.deletionAsked, DeletingPath(s'.phase));
  }

  /** The entry an observation leaves carries the id it had, none, or the fresh one of a new download. */
  lemma ObservedId(s: System, path: Path, started: Option<Id>)
    requires Enabled(s, SeeAndroid(path, started))
    ensures var s' := SeeAndroidStep(s, path, started);
            && path in s'.core.observed && s'.core.observed == s.core.observed[path := s'.core.observed[path]]
            && s'.core.processed == s.core.processed
            && var e' := s'.core.observed[path];
               if s'.core.downloadsQueued != s.core.downloadsQueued then
                 started.Some? && e'.transfer == started && s'.history.queued == s.history.queued + {started.value}
                 && s'.core.downloadsQueued == s.core.downloadsQueued + 1
               else
                 && s'.history.queued == s.history.queued
                 && (e'.transfer.None? ||
                     (path in s.core.observed && e'.transfer == s.core.observed[path].transfer
                      && e'.mark == s.core.observed[path].mark && e'.deletion == s.core.observed[path].deletion))
  {
  }

  lemma SeeAndroidCounts(s: System, path: Path, started: Option<Id>)
    requires CountInv(s) && Enabled(s, SeeAndroid(path, started))
    ensures CountInv(SeeAndroidStep(s, path, started))
  {
    var s' := SeeAndroidStep(s, path, started);
    ObservedId(s, path, started);
    assert path !in s.core.observed
        || IdOk(s.core.observed[path], path, s.core.processed, s.history.queued, s.history.counted,
                s.history.deletionAsked, None);
    EntryUpdateKeeps(s.core.observed, s.core.processed, s.history.queued, s.history.counted, s.history.deletionAsked,
                     None,
                     path, s'.core.observed[path], s'.core.processed, s'.history.queued, s.history.counted,
                     s.history.deletionAsked, None);
  }

  lemma UploadStatCounts(s: System)
    requires CountInv(s) && Enabled(s, UploadStat)
    ensures CountInv(Apply(s, UploadStat))
  {
    var p, c' := s.phase.destination, Apply(s, UploadStat).core;
    if p in s.world.remote {
      EntryUpdateKeeps(s.core.observed, s.core.processed, s.history.queued, s.history.counted, s.history.deletionAsked,
                       None,
                       p, c'.observed[p], c'.processed, s.history.queued, s.history.counted, s.history.deletionAsked,
                       None);
    }
  }

  lemma DeletionCounts(s: System, absent: bool)
    requires CountInv(s) && Enabled(s, DeletionEnds(absent))
    ensures CountInv(Apply(s, DeletionEnds(absent)))
  {
    var p, c' := s.phase.path, Apply(s, DeletionEnds(absent)).core;
    assert IdOk(s.core.observed[p], p, s.core.processed, s.history.queued, s.history.counted, s.history.deletionAsked,
                Some(p));
    EntryUpdateKeeps(s.core.observed, s.core.processed, s.history.queued, s.history.counted, s.history.deletionAsked,
                     Some(p),
                     p, c'.observed[p], s.core.processed, s.history.queued, s.history.counted, s.history.deletionAsked,
                     None);
  }

  /** Entries without an id may be added or replace others. */
  lemma RestingTableKeeps(table: Table, more: Table, marks: Marks, marks': Marks, queued: set<Id>, counted: set<Id>,
                          asked: set<Id>)
    requires TableOk(table, marks, queued, counted, asked, None) && marks.Keys <= marks'.Keys
    requires forall p :: p in more ==> more[p].transfer.None?
    ensures TableOk(table + more, marks', queued, counted, asked, None)
  {
  }

  lemma ListingCounts(s: System)
    requires CountInv(s) && Enabled(s, ListAndroid)
    ensures CountInv(Apply(s, ListAndroid))
  {
    var listing := Visible(s.world.remote);
    var more, marks := BaselineTable(listing, s.now, s.core.config.observations), BaselineMarks(listing, s.now);
    RestingTableKeeps(s.core.observed, more, s.core.processed, s.core.processed + marks,
                      s.history.queued, s.history.counted, s.history.deletionAsked);
    var c, c' := s.core, Apply(s, ListAndroid).core;
    assert c'.downloadsCompleted == c.downloadsCompleted && c'.downloadsQueued == c.downloadsQueued;
    assert (c'.observed == c.observed && c'.processed == c.processed)
           || (c'.observed == c.observed + more && c'.processed == c.processed + marks);
    assert Apply(s, ListAndroid).history == s.history && !Apply(s, ListAndroid).phase.Deleting?;
  }

  lemma EndingCounts(s: System)
    requires CountInv(s) && Enabled(s, EndAndroid)
    ensures CountInv(Apply(s, EndAndroid))
  {
  }

  lemma OthersCount(s: System, e: Event)
    requires CountInv(s) && Enabled(s, e) && NoMarkEvicted(s, e)
    requires !(e.Reconcile? || e.SeeAndroid? || e.UploadStat? || e.DeletionEnds? || e.ListAndroid? || e.EndAndroid?)
    ensures CountInv(Apply(s, e))
  {
    if e.Finish? {
      assert Apply(s, e) == s.(core := e.core, phase := Idle);
    } else {
      AndroidTableStays(s, e);
    }
  }

  lemma CountKept(s: System, e: Event)
    requires CountInv(s) && Enabled(s, e) && NoMarkEvicted(s, e)
    ensures CountInv(Apply(s, e))
  {
    match e
    case Reconcile(path) => ReconcileCounts(s, path);
    case SeeAndroid(path, started) => SeeAndroidCounts(s, path, started);
    case UploadStat => UploadStatCounts(s);
    case DeletionEnds(absent) => DeletionCounts(s, absent);
    case ListAndroid => ListingCounts(s);
    case EndAndroid => EndingCounts(s);
    case _ => OthersCount(s, e);
  }

  /** Reconciling is safe to repeat on every scan: a transfer is counted once, its version is marked
      then and not before, its source is asked to be deleted once and only after a size-matched
      COMPLETED, and never more downloads are counted than were queued. */
  lemma ReconcileCountsOnce(s: System, path: Path)
    requires CountInv(s) && Enabled(s, Reconcile(path))
    ensures var e, s' := s.core.observed[path], ReconcileStep(s, path);
            && s.core.downloadsCompleted <= s.core.downloadsQueued
            && (s'.core.downloadsCompleted != s.core.downloadsCompleted ==>
                 && s'.core.downloadsCompleted == s.core.downloadsCompleted + 1
                 && Arrived(Record(s.world, e.transfer)) && e.transfer.value !in s.history.counted
                 && e.mark !in s.core.processed && e.mark in s'.core.processed)
            && (s'.phase.Deleting? ==>
                 Arrived(Record(s.world, e.transfer)) && e.transfer.value !in s.history.deletionAsked
                 && e.transfer.value in s'.history.deletionAsked && s'.phase.path == path)
  {
    SubsetIsSmaller(s.history.counted, s.history.queued);
  }

  lemma {:induction false} CountsHoldOverRuns(s: System, events: seq<Event>)
    requires CountInv(s) && Legal(s, events) && NoMarkEvictedRun(s, events)
    ensures CountInv(Execute(s, events))
            && Execute(s, events).core.downloadsCompleted <= Execute(s, events).core.downloadsQueued
    decreases |events|
  {
    if events == [] {
      SubsetIsSmaller(s.history.counted, s.history.queued);
    } else {
      CountKept(s, events[0]);
      CountsHoldOverRuns(Apply(s, events[0]), events[1..]);
    }
  }
}
