/** After a failed attempt the same version of a file is not queued again before its delay has passed, 30 to 240
    seconds, in either direction. A new version of the file starts over without a wait. */
module RetryWaits {
  import opened Wrappers
  import opened MonitorModel
  import opened MonitorSystem
  import opened MonitorTheorems

  const SHORTEST_WAIT := 30.0
  const LONGEST_WAIT := 240.0

  lemma WaitsAreBounded(retries: nat)
    requires retries > 0
    ensures SHORTEST_WAIT <= RetryDelay(retries) <= LONGEST_WAIT
  {
    RetryDelays(retries);
  }

  /** The entry shows this version, has no transfer, and asks to wait at least until then. */
  ghost predicate Waits(table: Table, f: Fingerprint, until: real) {
    f.path in table && table[f.path].mark == f && table[f.path].nextRetry >= until && table[f.path].transfer.None?
  }

  predicate Copies(phase: Phase, path: Path) { (phase.Copying? || phase.Copied?) && phase.file.path == path }

  /** The version is handled for good, or waits, or the wait is over. */
  ghost predicate AndroidRests(s: System, f: Fingerprint, until: real) {
    s.now >= until || f in s.core.processed || Waits(s.core.observed, f, until)
  }

  ghost predicate PcRests(s: System, f: Fingerprint, until: real) {
    s.now >= until || f in s.core.processedLocal || (Waits(s.core.localObserved, f, until) && !Copies(s.phase, f.path))
  }

  // ---------------------------------------------------------------- what starts a wait

  /** A failed attempt to queue, and a transfer that ended without success, both count one more failure
      and wait the delay of the new count, 30 to 240 seconds from now. */
  lemma FailuresWait(e: Entry, now: real)
    ensures var failed := AnsweredEntry(e, None, now);
            && failed.mark == e.mark && failed.retries == e.retries + 1
            && now + SHORTEST_WAIT <= failed.nextRetry == now + RetryDelay(failed.retries) <= now + LONGEST_WAIT
    ensures forall destination :: var ended := ReconciledEntry(e, Some(Transfer(Ended, destination)), now);
            && ended.mark == e.mark && ended.retries == e.retries + 1
            && now + SHORTEST_WAIT <= ended.nextRetry == now + RetryDelay(ended.retries) <= now + LONGEST_WAIT
  {
    WaitsAreBounded(e.retries + 1);
  }

  /** A changed file drops the wait of its old version. */
  lemma AChangedFileDropsTheWait(table: Table, marks: Marks, config: Config, resting: set<Status>, f: Fingerprint,
                                 now: real)
    requires f.path in table && table[f.path].mark != f
    ensures Observe(table, marks, config, resting, f, now).nextRetry == 0.0
    ensures Observe(table, marks, config, resting, f, now).retries == 0
  {
  }

  /** The step in which an attempt to bring this version to the PC fails. */
  ghost predicate DownloadFails(s: System, e: Event, f: Fingerprint) {
    Enabled(s, e) &&
    match e
    case SeeAndroid(path, started) =>
      && Fingerprint(path, s.phase.listing[path]) == f && started.None?
      && Queues(s.core.observed, s.core.processed, s.core.config, f, s.now)
    case Reconcile(path) =>
      var record := Record(s.world, s.core.observed[path].transfer);
      f.path == path && s.core.observed[path].mark == f && record.Some? && record.value.outcome.Ended?
    case _ => false
  }

  /** The step in which an attempt to send this version to the phone fails. */
  ghost predicate UploadFails(s: System, e: Event, f: Fingerprint) {
    Enabled(s, e) &&
    match e
    case SeePc(path) =>
      && Fingerprint(path, s.phase.listing[path]) == f && path !in s.world.local
      && Queues(s.core.localObserved, s.core.processedLocal, s.core.config, f, s.now)
    case CopyTaken => f.path == s.phase.file.path && s.core.localObserved[f.path].mark == f && f.path !in s.world.local
    case SpoolEnds(started) => f.path == s.phase.file.path && s.core.localObserved[f.path].mark == f && started.None?
    case ReconcileUp(path) =>
      var record := Record(s.world, s.core.localObserved[path].transfer);
      f.path == path && s.core.localObserved[path].mark == f && record.Some? && record.value.outcome.Ended?
    case _ => false
  }

  /** The failures counted once this attempt has failed too: those of the same version, and one more. */
  function Failures(table: Table, f: Fingerprint): nat {
    if f.path in table && table[f.path].mark == f then table[f.path].retries + 1 else 1
  }

  lemma DownloadFailureWaits(s: System, e: Event, f: Fingerprint)
    requires DownloadFails(s, e, f)
    ensures Apply(s, e).now == s.now
    ensures AndroidRests(Apply(s, e), f, s.now + RetryDelay(Failures(s.core.observed, f)))
  {
  }

  /** While a file is copied its entry shows the listed version and has no transfer yet. */
  ghost predicate CopyingEntry(s: System) {
    s.phase.Copying? || s.phase.Copied? ==>
      && s.phase.file.path in s.core.localObserved && s.core.localObserved[s.phase.file.path].mark == s.phase.file
      && s.core.localObserved[s.phase.file.path].transfer.None?
  }

  lemma CopyingEntryStays(s: System, e: Event)
    requires CopyingEntry(s) && Enabled(s, e)
    ensures CopyingEntry(Apply(s, e))
  {
    if IsWorldEvent(e) { TheWorldWritesNoTable(s, e); }
  }

  lemma UploadFailureWaits(s: System, e: Event, f: Fingerprint)
    requires UploadFails(s, e, f) && CopyingEntry(s)
    ensures Apply(s, e).now == s.now
    ensures PcRests(Apply(s, e), f, s.now + RetryDelay(Failures(s.core.localObserved, f)))
  {
  }

  // ---------------------------------------------------------------- every step keeps a wait

  /** No other version of the Android file comes to the monitor's notice in this step, and its entry stays. */
  ghost predicate SameRemote(s: System, e: Event, f: Fingerprint) {
    Enabled(s, e) &&
    match e
    case SeeAndroid(path, _) => path == f.path ==> s.phase.listing[path] == f.stat
    case ListAndroid => f.path in s.world.remote ==> s.world.remote[f.path] == f.stat
    case UploadStat => s.phase.destination == f.path && f.path in s.world.remote ==> s.world.remote[f.path] == f.stat
    case Finish(core) => f.path in s.core.observed ==> f.path in core.observed
    case _ => true
  }

  /** No other version of the PC file comes to the monitor's notice in this step, and its entry stays. */
  ghost predicate SameLocal(s: System, e: Event, f: Fingerprint) {
    Enabled(s, e) &&
    match e
    case SeePc(path) => path == f.path ==> s.phase.listing[path] == f.stat
    case ListPc => f.path in s.world.local ==> s.world.local[f.path] == f.stat
    case Reconcile(path) =>
      var record := Record(s.world, s.core.observed[path].transfer);
      Arrived(record) && record.value.destination == f.path && f.path in s.world.local ==>
        s.world.local[f.path] == f.stat
    case Finish(core) => f.path in s.core.localObserved ==> f.path in core.localObserved
    case _ => true
  }

  /** While it waits, looking at the version changes nothing of that and does not queue it. */
  lemma ObservingKeepsWait(table: Table, marks: Marks, config: Config, resting: set<Status>, f: Fingerprint, now: real,
                           until: real)
    requires Waits(table, f, until) && now < until
    ensures Waits(table[f.path := Observe(table, marks, config, resting, f, now)], f, until)
    ensures !Queues(table, marks, config, f, now)
  {
  }

  lemma SeeAndroidRests(s: System, path: Path, started: Option<Id>, f: Fingerprint, until: real)
    requires AndroidRests(s, f, until) && SameRemote(s, SeeAndroid(path, started), f)
    ensures AndroidRests(SeeAndroidStep(s, path, started), f, until)
  {
    if s.now < until && path == f.path && f !in s.core.processed {
      ObservingKeepsWait(s.core.observed, s.core.processed, s.core.config, ANDROID_RESTING, f, s.now, until);
      assert SeeAndroidStep(s, path, started).core == ObserveAndroid(s.core, f, s.now);
    }
  }

  lemma AndroidStaysAtRest(s: System, e: Event, f: Fingerprint, until: real)
    requires AndroidRests(s, f, until) && SameRemote(s, e, f) && NoMarkEvicted(s, e)
    ensures AndroidRests(Apply(s, e), f, until)
  {
    if e.SeeAndroid? { SeeAndroidRests(s, e.path, e.started, f, until); }
    else if !WritesAndroidTable(e) { AndroidTableStays(s, e); }
  }

  lemma SeePcRests(s: System, path: Path, f: Fingerprint, until: real)
    requires PcRests(s, f, until) && SameLocal(s, SeePc(path), f)
    ensures PcRests(SeePcStep(s, path), f, until)
  {
    if s.now < until && path == f.path && f !in s.core.processedLocal {
      ObservingKeepsWait(s.core.localObserved, s.core.processedLocal, s.core.config, PC_RESTING, f, s.now, until);
      assert SeePcStep(s, path).core == ObservePc(s.core, f, s.now) && SeePcStep(s, path).phase.Pc?;
    }
  }

  lemma CopyingRests(s: System, e: Event, f: Fingerprint, until: real)
    requires PcRests(s, f, until) && Enabled(s, e) && (e.CopyTaken? || e.SpoolEnds?)
    ensures PcRests(Apply(s, e), f, until)
  {
  }

  lemma OthersRest(s: System, e: Event, f: Fingerprint, until: real)
    requires PcRests(s, f, until) && Enabled(s, e) && !WritesPcTable(e)
    ensures PcRests(Apply(s, e), f, until)
  {
    PcTableStays(s, e);
    if IsWorldEvent(e) { TheWorldWritesNoTable(s, e); }
  }

  lemma PcStaysAtRest(s: System, e: Event, f: Fingerprint, until: real)
    requires PcRests(s, f, until) && SameLocal(s, e, f) && NoMarkEvicted(s, e)
    ensures PcRests(Apply(s, e), f, until)
  {
    if e.SeePc? { SeePcRests(s, e.path, f, until); }
    else if e.CopyTaken? || e.SpoolEnds? { CopyingRests(s, e, f, until); }
    else if !WritesPcTable(e) { OthersRest(s, e, f, until); }
  }

  // ---------------------------------------------------------------- runs

  ghost predicate SameRemoteRun(s: System, events: seq<Event>, f: Fingerprint)
    requires Legal(s, events)
    decreases |events|
  {
    events == [] || (SameRemote(s, events[0], f) && SameRemoteRun(Apply(s, events[0]), events[1..], f))
  }

  ghost predicate SameLocalRun(s: System, events: seq<Event>, f: Fingerprint)
    requires Legal(s, events)
    decreases |events|
  {
    events == [] || (SameLocal(s, events[0], f) && SameLocalRun(Apply(s, events[0]), events[1..], f))
  }

  lemma {:induction false} AndroidRunRests(s: System, events: seq<Event>, f: Fingerprint, until: real)
    requires AndroidRests(s, f, until)
    requires Legal(s, events) && NoMarkEvictedRun(s, events) && SameRemoteRun(s, events, f)
    ensures AndroidRests(Execute(s, events), f, until)
    decreases |events|
  {
    if events != [] {
      AndroidStaysAtRest(s, events[0], f, until);
      AndroidRunRests(Apply(s, events[0]), events[1..], f, until);
    }
  }

  lemma {:induction false} PcRunRests(s: System, events: seq<Event>, f: Fingerprint, until: real)
    requires PcRests(s, f, until)
    requires Legal(s, events) && NoMarkEvictedRun(s, events) && SameLocalRun(s, events, f)
    ensures PcRests(Execute(s, events), f, until)
    decreases |events|
  {
    if events != [] {
      PcStaysAtRest(s, events[0], f, until);
      PcRunRests(Apply(s, events[0]), events[1..], f, until);
    }
  }

  /** An Android version whose attempt failed is not queued before the delay of its new count of failures has passed,
      30 to 240 seconds, whatever happens, while no other version is seen at its path. */
  lemma DownloadAttemptsAreSpaced(s: System, e: Event, events: seq<Event>, f: Fingerprint)
    requires DownloadFails(s, e, f)
    requires Legal(Apply(s, e), events) && NoMarkEvictedRun(Apply(s, e), events)
             && SameRemoteRun(Apply(s, e), events, f)
    ensures var s', delay := Execute(Apply(s, e), events), RetryDelay(Failures(s.core.observed, f));
            && SHORTEST_WAIT <= delay <= LONGEST_WAIT
            && (s'.now < s.now + delay ==> !Queues(s'.core.observed, s'.core.processed, s'.core.config, f, s'.now))
  {
    DownloadFailureWaits(s, e, f);
    var delay := RetryDelay(Failures(s.core.observed, f));
    WaitsAreBounded(Failures(s.core.observed, f));
    AndroidRunRests(Apply(s, e), events, f, s.now + delay);
  }

  /** The same for a PC version, from every state a run can reach: `CopyingEntryStays`. */
  lemma UploadAttemptsAreSpaced(s: System, e: Event, events: seq<Event>, f: Fingerprint)
    requires UploadFails(s, e, f) && CopyingEntry(s)
    requires Legal(Apply(s, e), events) && NoMarkEvictedRun(Apply(s, e), events) && SameLocalRun(Apply(s, e), events, f)
    ensures var s', delay := Execute(Apply(s, e), events), RetryDelay(Failures(s.core.localObserved, f));
            && SHORTEST_WAIT <= delay <= LONGEST_WAIT
            && (s'.now < s.now + delay ==>
                  !Queues(s'.core.localObserved, s'.core.processedLocal, s'.core.config, f, s'.now))
  {
    UploadFailureWaits(s, e, f);
    var delay := RetryDelay(Failures(s.core.localObserved, f));
    WaitsAreBounded(Failures(s.core.localObserved, f));
    PcRunRests(Apply(s, e), events, f, s.now + delay);
  }
}
