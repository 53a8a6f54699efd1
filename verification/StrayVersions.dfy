/** What becomes of a version in the PC folder that nobody waits for: a whole reconcile pass marks it exactly if an
    entry carries a finished download to its path, and if none ever does it is sent once it has been stable. */
module StrayVersions {
  import opened Wrappers
  import opened MonitorModel
  import opened MonitorSystem
  import opened LoopFreedom
  import opened MonitorTheorems
  import opened RetryWaits
  import opened SwallowedEdits
  import opened MonitorLimits

  // ---------------------------------------------------------------- one whole reconcile pass

  /** Nobody writes to the path, and no download that went there is cancelled late. */
  ghost predicate LeavesPath(s: System, e: Event, x: Path) {
    match e
    case EditLocal(path, _) => path != x
    case DownloadDone(_, path, _) => path != x
    case CancelledLate(id) => id in s.world.records ==> s.world.records[id].destination != x
    case _ => true
  }

  /** The entries of the Android table carry downloads. */
  ghost predicate CarryDownloads(s: System) {
    forall p :: p in s.core.observed && s.core.observed[p].transfer.Some? ==>
      IsDownload(s, s.core.observed[p].transfer.value)
  }

  /** The scan reconciles downloads. */
  predicate Reconciling(s: System) { s.phase.Downloads? || s.phase.Deleting? }

  ghost predicate CarriedBy(s: System, paths: set<Path>, x: Path) { exists p :: p in paths && Carries(s, p, x) }

  /** In every state that keeps the books on counted downloads they do. */
  lemma CountedEntriesCarryDownloads(s: System)
    requires CountInv(s)
    ensures CarryDownloads(s)
  {
    forall p | p in s.core.observed && s.core.observed[p].transfer.Some?
      ensures s.core.observed[p].transfer.value in s.history.queued
    {
      assert IdOk(s.core.observed[p], p, s.core.processed, s.history.queued, s.history.counted, s.history.deletionAsked,
                  DeletingPath(s.phase));
    }
  }

  /** What a world event leaves of the entries that carry downloads to `x`. */
  lemma CarriersStay(s: System, e: Event, p: Path, x: Path)
    requires Enabled(s, e) && IsWorldEvent(e) && LeavesPath(s, e, x) && CarryDownloads(s)
    ensures Carries(Apply(s, e), p, x) <==> Carries(s, p, x)
  {
    TheWorldWritesNoTable(s, e);
  }

  lemma CarryDownloadsStays(s: System, e: Event)
    requires Enabled(s, e) && Reconciling(s) && !e.EndDownloads? && CarryDownloads(s)
    ensures CarryDownloads(Apply(s, e))
  {
    if IsWorldEvent(e) { TheWorldWritesNoTable(s, e); }
  }

  /** An entry's turn: it marks the version if it carries a download there, and leaves the others to theirs. */
  lemma ReconcileTurn(s: System, path: Path, f: Fingerprint)
    requires Enabled(s, Reconcile(path)) && OnDisk(s.world, f)
    ensures f in ReconcileStep(s, path).core.processedLocal
            <==> f in s.core.processedLocal || Carries(s, path, f.path)
    ensures forall p :: p != path ==> (Carries(ReconcileStep(s, path), p, f.path) <==> Carries(s, p, f.path))
  {
  }

  lemma DeletionTurn(s: System, absent: bool, f: Fingerprint)
    requires Enabled(s, DeletionEnds(absent))
    ensures Apply(s, DeletionEnds(absent)).core.processedLocal == s.core.processedLocal
    ensures forall p :: Carries(Apply(s, DeletionEnds(absent)), p, f.path) <==> Carries(s, p, f.path)
  {
  }

  /** Handled now, or carried by an entry whose turn is still to come. */
  ghost predicate WillBeHandled(s: System, f: Fingerprint)
    requires Reconciling(s)
  {
    f in s.core.processedLocal || CarriedBy(s, s.phase.left, f.path)
  }

  lemma TurnKeepsTheOutcome(s: System, e: Event, f: Fingerprint)
    requires Enabled(s, e) && Reconciling(s) && !e.EndDownloads? && LeavesPath(s, e, f.path) && CarryDownloads(s)
    requires OnDisk(s.world, f)
    ensures Reconciling(Apply(s, e)) && OnDisk(Apply(s, e).world, f)
    ensures WillBeHandled(Apply(s, e), f) <==> WillBeHandled(s, f)
  {
    if e.Reconcile? {
      ReconcileTurn(s, e.path, f);
    } else if e.DeletionEnds? {
      DeletionTurn(s, e.absent, f);
    } else {
      TheWorldWritesNoTable(s, e);
      forall p
        ensures Carries(Apply(s, e), p, f.path) <==> Carries(s, p, f.path)
      {
        CarriersStay(s, e, p, f.path);
      }
    }
  }

  /** The run stays within the pass and leaves the path alone. */
  ghost predicate PassLeaves(s: System, events: seq<Event>, x: Path)
    requires Legal(s, events)
    decreases |events|
  {
    events == [] || (!events[0].EndDownloads? && LeavesPath(s, events[0], x)
                     && PassLeaves(Apply(s, events[0]), events[1..], x))
  }

  lemma {:induction false} PassKeepsTheOutcome(s: System, events: seq<Event>, f: Fingerprint)
    requires Reconciling(s) && CarryDownloads(s) && OnDisk(s.world, f)
    requires Legal(s, events) && PassLeaves(s, events, f.path)
    ensures Reconciling(Execute(s, events))
    ensures WillBeHandled(Execute(s, events), f) <==> WillBeHandled(s, f)
    decreases |events|
  {
    if events != [] {
      TurnKeepsTheOutcome(s, events[0], f);
      CarryDownloadsStays(s, events[0]);
      PassKeepsTheOutcome(Apply(s, events[0]), events[1..], f);
    }
  }

  /** A whole reconcile pass, from the beginning of the scan to the point where no entry is left, with anything else in
      between that leaves the path alone: a version on disk not handled before is handled then if and only if some
      entry carries a finished download to its path. So it is with stray versions and with edits alike. */
  lemma APassMarksExactlyWhatIsCarried(s: System, now: real, events: seq<Event>, f: Fingerprint)
    requires Enabled(s, BeginScan(now)) && CarryDownloads(s) && OnDisk(s.world, f) && f !in s.core.processedLocal
    requires Legal(Apply(s, BeginScan(now)), events) && PassLeaves(Apply(s, BeginScan(now)), events, f.path)
    requires Enabled(Execute(Apply(s, BeginScan(now)), events), EndDownloads)
    ensures f in Execute(Apply(s, BeginScan(now)), events).core.processedLocal <==> exists p :: Carries(s, p, f.path)
  {
    var begun := Apply(s, BeginScan(now));
    PassKeepsTheOutcome(begun, events, f);
    assert !CarriedBy(Execute(begun, events), {}, f.path);
    forall p
      ensures p in begun.phase.left && Carries(begun, p, f.path) <==> Carries(s, p, f.path)
    {
    }
  }

  // ---------------------------------------------------------------- a version nothing marks

  /** The version stays on disk as it is, nobody looks at another one at its path, and nothing marks it. */
  ghost predicate LeftAlone(s: System, e: Event, f: Fingerprint) {
    && LeavesPath(s, e, f.path) && SameLocal(s, e, f) && NoMarkEvicted(s, e)
    && match e
       case Reconcile(path) => !Carries(s, path, f.path)
       case ListPc => s.core.pcBaselined || s.core.config.includeExistingPc
       case _ => true
  }

  function Looks(log: Log, path: Path): nat { if path in log then |log[path]| else 0 }

  /** The sightings of the path after the first `base`. */
  function Since(log: Log, path: Path, base: nat): seq<Seen> {
    if base <= Looks(log, path) && path in log then log[path][base..] else []
  }

  /** The entry of the version, if there is one, has no transfer and is not from the future. */
  ghost predicate Unattempted(s: System, f: Fingerprint) {
    Noticed(s.core, f) ==>
      s.core.localObserved[f.path].transfer.None? && s.core.localObserved[f.path].lastChanged <= s.now
  }

  /** The entry has counted these sightings of the version, from the first of them on. */
  ghost predicate HasCounted(c: Core, f: Fingerprint, seen: seq<Seen>) {
    seen != [] ==>
      && Noticed(c, f) && c.localObserved[f.path].sightings >= |seen|
      && c.localObserved[f.path].lastChanged <= seen[0].at
  }

  /** The version was sent, or it is there, not handled, and its sightings count. */
  ghost predicate Ripening(s: System, f: Fingerprint, base: nat) {
    f in s.history.sent
    || (OnDisk(s.world, f) && f !in s.core.processedLocal && Unattempted(s, f)
        && base <= Looks(s.history.pcLog, f.path)
        && (s.phase.Copied? && s.phase.file.path == f.path ==> s.phase.copy == f.stat)
        && HasCounted(s.core, f, Since(s.history.pcLog, f.path, base)))
  }

  lemma LogGrows(log: Log, path: Path, stat: Stat, now: real, base: nat)
    requires base <= Looks(log, path)
    ensures Since(Note(log, path, stat, now), path, base) == Since(log, path, base) + [Seen(stat, now)]
    ensures Looks(Note(log, path, stat, now), path) == Looks(log, path) + 1
  {
  }

  /** One more sighting, in the table and in the log. */
  lemma OneMoreSighting(s: System, f: Fingerprint, seen: seq<Seen>)
    requires HasCounted(s.core, f, seen) && Unattempted(s, f) && f !in s.core.processedLocal
    ensures var c := ObservePc(s.core, f, s.now);
            && HasCounted(c, f, seen + [Seen(f.stat, s.now)])
            && Noticed(c, f) && c.localObserved[f.path].transfer.None? && c.localObserved[f.path].lastChanged <= s.now
  {
  }

  lemma SightingStep(s: System, f: Fingerprint)
    requires Enabled(s, SeePc(f.path)) && s.phase.listing[f.path] == f.stat && OnDisk(s.world, f)
    ensures var s' := SeePcStep(s, f.path);
            && s'.core == ObservePc(s.core, f, s.now) && s'.world == s.world && s'.now == s.now && !s'.phase.Copied?
            && s'.history == s.history.(pcLog := Note(s.history.pcLog, f.path, f.stat, s.now))
  {
  }

  lemma SightingCounts(s: System, f: Fingerprint, base: nat)
    requires Enabled(s, SeePc(f.path)) && LeftAlone(s, SeePc(f.path), f)
    requires Ripening(s, f, base) && f !in s.history.sent
    ensures Ripening(SeePcStep(s, f.path), f, base)
  {
    SightingStep(s, f);
    OneMoreSighting(s, f, Since(s.history.pcLog, f.path, base));
    LogGrows(s.history.pcLog, f.path, f.stat, s.now, base);
  }

  lemma SeeOtherRipens(s: System, path: Path, f: Fingerprint, base: nat)
    requires Enabled(s, SeePc(path)) && path != f.path && Ripening(s, f, base) && f !in s.history.sent
    ensures Ripening(SeePcStep(s, path), f, base)
  {
  }

  lemma CopyRipens(s: System, e: Event, f: Fingerprint, base: nat)
    requires Enabled(s, e) && (e.CopyTaken? || e.SpoolEnds?) && Ripening(s, f, base) && f !in s.history.sent
    ensures Ripening(Apply(s, e), f, base)
  {
  }

  /** The entry of the version is as it was, but for its status. */
  ghost predicate SameEntry(c: Core, c': Core, f: Fingerprint) {
    && (f in c'.processedLocal <==> f in c.processedLocal)
    && (Noticed(c', f) <==> Noticed(c, f))
    && (Noticed(c, f) ==>
          c'.localObserved[f.path] == c.localObserved[f.path].(status := c'.localObserved[f.path].status))
  }

  lemma SameEntryRipens(s: System, s': System, f: Fingerprint, base: nat)
    requires Ripening(s, f, base) && f !in s.history.sent && SameEntry(s.core, s'.core, f)
    requires s'.world == s.world && s'.now == s.now && s'.history.pcLog == s.history.pcLog && !s'.phase.Copied?
    ensures Ripening(s', f, base)
  {
  }

  lemma ReconcileRipens(s: System, path: Path, f: Fingerprint)
    requires Enabled(s, Reconcile(path)) && !Carries(s, path, f.path) && OnDisk(s.world, f)
             && f !in s.core.processedLocal
    ensures SameEntry(s.core, ReconcileStep(s, path).core, f)
  {
    var record := Record(s.world, s.core.observed[path].transfer);
    ReconcileEffect(s.core, path, record, Found(s.world, record), s.now, f);
    if Arrived(record) && record.value.destination == f.path { assert record.value == Transfer(Succeeded, f.path); }
    EditIsSwallowedExactlyIfFound(s, path, f);
  }

  lemma TableRipens(s: System, e: Event, f: Fingerprint, base: nat)
    requires Enabled(s, e) && LeftAlone(s, e, f) && Ripening(s, f, base) && f !in s.history.sent
    requires e.Reconcile? || e.ReconcileUp? || e.ListPc? || e.EndPc? || e.Finish?
    requires StabilityInv(s)
    ensures Ripening(Apply(s, e), f, base)
  {
    if e.ReconcileUp? { assert s.core.localObserved[e.path].mark.path == e.path; }
    if e.Reconcile? { ReconcileRipens(s, e.path, f); }
    SameEntryRipens(s, Apply(s, e), f, base);
  }

  lemma OthersRipen(s: System, e: Event, f: Fingerprint, base: nat)
    requires Enabled(s, e) && LeftAlone(s, e, f) && Ripening(s, f, base) && f !in s.history.sent && !WritesPcTable(e)
    ensures Ripening(Apply(s, e), f, base)
  {
    PcTableStays(s, e);
    if IsWorldEvent(e) { TheWorldWritesNoTable(s, e); }
  }

  lemma RipeningStays(s: System, e: Event, f: Fingerprint, base: nat)
    requires Enabled(s, e) && LeftAlone(s, e, f) && Ripening(s, f, base) && StabilityInv(s)
    ensures Ripening(Apply(s, e), f, base)
  {
    if f in s.history.sent {
      if IsWorldEvent(e) { WorldBookkeeping(s, e); } else { ScanHistory(s, e); }
    } else if e.SeePc? {
      if e.path == f.path { SightingCounts(s, f, base); } else { SeeOtherRipens(s, e.path, f, base); }
    } else if e.CopyTaken? || e.SpoolEnds? {
      CopyRipens(s, e, f, base);
    } else if WritesPcTable(e) {
      TableRipens(s, e, f, base);
    } else {
      OthersRipen(s, e, f, base);
    }
  }

  ghost predicate LeftAloneRun(s: System, events: seq<Event>, f: Fingerprint)
    requires Legal(s, events)
    decreases |events|
  {
    events == [] || (LeftAlone(s, events[0], f) && LeftAloneRun(Apply(s, events[0]), events[1..], f))
  }

  lemma {:induction false} RipensOverRuns(s: System, events: seq<Event>, f: Fingerprint, base: nat)
    requires Ripening(s, f, base) && StabilityInv(s) && Legal(s, events) && LeftAloneRun(s, events, f)
    ensures Ripening(Execute(s, events), f, base)
    decreases |events|
  {
    if events != [] {
      RipeningStays(s, events[0], f, base);
      StabilityKept(s, events[0]);
      RipensOverRuns(Apply(s, events[0]), events[1..], f, base);
    }
  }

  /** Counting this one, the path was seen often enough, the first time long enough ago. */
  ghost predicate SeenEnough(seen: seq<Seen>, config: Config, now: real) {
    seen != [] && |seen| + 1 >= config.observations && now - seen[0].at >= config.seconds
  }

  lemma ARipeVersionIsSent(s: System, f: Fingerprint, base: nat, copy: Id)
    requires Ripening(s, f, base) && f !in s.history.sent && Enabled(s, SeePc(f.path)) && LeftAlone(s, SeePc(f.path), f)
    requires SeenEnough(Since(s.history.pcLog, f.path, base), s.core.config, s.now)
    requires f.path in s.core.localObserved ==> s.now >= s.core.localObserved[f.path].nextRetry
    requires NewId(s, Some(copy))
    ensures Runs(s, CopyEvents(f.path, copy)) && f in Execute(s, CopyEvents(f.path, copy)).history.sent
  {
    assert Queues(s.core.localObserved, s.core.processedLocal, s.core.config, f, s.now);
    CopiesWhatIsThere(s, f.path, copy);
  }

  /** A version in the PC folder that is not handled, a stray delivery say, and that nothing marks and nobody touches:
      in whatever state it is found, and whatever happens meanwhile, it has been sent by the time it has been seen often
      enough for long enough, or the next sighting sends it, unless a failed attempt still waits. */
  lemma AnUnmarkedVersionIsSent(s: System, events: seq<Event>, f: Fingerprint, copy: Id)
    requires StabilityInv(s) && OnDisk(s.world, f) && f !in s.core.processedLocal && Unattempted(s, f)
    requires s.phase.Copied? && s.phase.file.path == f.path ==> s.phase.copy == f.stat
    requires Legal(s, events) && LeftAloneRun(s, events, f)
    ensures var s' := Execute(s, events);
            var seen := Since(s'.history.pcLog, f.path, Looks(s.history.pcLog, f.path));
            f in s'.history.sent
            || (Enabled(s', SeePc(f.path)) && s'.phase.listing[f.path] == f.stat && NewId(s', Some(copy))
                && SeenEnough(seen, s'.core.config, s'.now)
                && (f.path in s'.core.localObserved ==> s'.now >= s'.core.localObserved[f.path].nextRetry)
                ==> Runs(s', CopyEvents(f.path, copy)) && f in Execute(s', CopyEvents(f.path, copy)).history.sent)
  {
    var base := Looks(s.history.pcLog, f.path);
    RipensOverRuns(s, events, f, base);
    var s' := Execute(s, events);
    if f !in s'.history.sent && Enabled(s', SeePc(f.path)) && s'.phase.listing[f.path] == f.stat
       && NewId(s', Some(copy))
       && SeenEnough(Since(s'.history.pcLog, f.path, base), s'.core.config, s'.now)
       && (f.path in s'.core.localObserved ==> s'.now >= s'.core.localObserved[f.path].nextRetry)
    {
      ARipeVersionIsSent(s', f, base, copy);
    }
  }

  // ---------------------------------------------------------------- a version something marked

  ghost predicate MarkedAndUnsent(s: System, f: Fingerprint) {
    f in s.core.processedLocal && !Copies(s.phase, f.path) && f !in s.history.sent
  }

  lemma MarkedStays(s: System, e: Event, f: Fingerprint)
    requires MarkedAndUnsent(s, f) && SameLocal(s, e, f) && NoMarkEvicted(s, e)
    ensures MarkedAndUnsent(Apply(s, e), f)
  {
    PcMarksStay(s, e);
    if IsWorldEvent(e) {
      TheWorldWritesNoTable(s, e);
      WorldBookkeeping(s, e);
    } else {
      ScanHistory(s, e);
    }
  }

  /** The other half: once a pass has marked it, the version is not sent in any later scan, while no other version is
      seen at its path. */
  lemma {:induction false} AMarkedVersionIsNotSent(s: System, events: seq<Event>, f: Fingerprint)
    requires f in s.core.processedLocal && !Copies(s.phase, f.path) && f !in s.history.sent
    requires Legal(s, events) && SameLocalRun(s, events, f) && NoMarkEvictedRun(s, events)
    ensures f !in Execute(s, events).history.sent
    decreases |events|
  {
    if events != [] {
      MarkedStays(s, events[0], f);
      AMarkedVersionIsNotSent(Apply(s, events[0]), events[1..], f);
    }
  }
}
