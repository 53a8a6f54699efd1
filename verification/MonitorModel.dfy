/** The watched-folder monitor: its tables, and what each uninterrupted block of a scan does to them.

    Both directions keep a table of watched files and a set of processed fingerprints; the two sides
    run the same code on different tables. */
module MonitorModel {
  import opened Wrappers
  import opened Texts
  import Decimal

  type Id = nat

  /** A file's absolute path. */
  datatype Path = Path(text: string)

  /** Size and modification time, as a directory listing or a STAT reports them. */
  datatype Stat = Stat(size: nat, modified: int)

  /** What identifies one version of one file. */
  datatype Fingerprint = Fingerprint(path: Path, stat: Stat)

  datatype Status =
    | Pending | Queueing | Queued | InTransfer | Completed | Failed | Baseline | Disappeared
    | Processed | UploadedFromPc | DownloadedFromAndroid | Deleted

  datatype Deletion = NotTried | VerifiedAbsent | DeletionFailed

  /** ObservedFile and ObservedLocalFile. */
  datatype Entry = Entry(
    mark: Fingerprint, firstSeen: real, lastChanged: real, sightings: nat, status: Status,
    transfer: Option<Id>, retries: nat, nextRetry: real, deletion: Deletion)

  type Table = map<Path, Entry>

  type Marks = map<Fingerprint, real>

  datatype Config = Config(
    enabled: bool, pcEnabled: bool, observations: nat, seconds: real,
    includeExisting: bool, includeExistingPc: bool, deleteAfterVerified: bool)
  {
    /** The ranges `validate` enforces on what these models use. */
    predicate Valid() { 2 <= observations <= 20 && 1.0 <= seconds <= 300.0 }
  }

  datatype Core = Core(
    config: Config, observed: Table, localObserved: Table, processed: Marks, processedLocal: Marks,
    baselined: bool, pcBaselined: bool,
    downloadsQueued: nat, downloadsCompleted: nat, uploadsQueued: nat, uploadsCompleted: nat, deletions: nat)

  datatype Outcome = Running | Succeeded | Ended

  /** What a scan reads of a transfer record: running, COMPLETED with a size match, or ended otherwise. */
  datatype Transfer = Transfer(outcome: Outcome, destination: Path)

  // ---------------------------------------------------------------- fingerprints and names

  /** The fingerprint string: path, size and modification time with NUL between them. */
  function Text(f: Fingerprint): string {
    f.path.text + "\0" + Decimal.Print(f.stat.size) + "\0" + Decimal.PrintInt(f.stat.modified)
  }

  lemma SplitAtNul(a: string, x: string, b: string, y: string)
    requires a + "\0" + x == b + "\0" + y
    requires '\0' !in a && '\0' !in b
    ensures a == b && x == y
  {
    var s := a + "\0" + x;
    assert s[|a|] == '\0' && s[|b|] == '\0';
    assert forall i :: 0 <= i < |a| ==> s[i] == a[i];
    assert forall i :: 0 <= i < |b| ==> s[i] == b[i];
    assert s[..|a|] == a && s[..|b|] == b;
    assert s[|a| + 1..] == x && s[|b| + 1..] == y;
  }

  /** No two versions of files share a fingerprint string: file names hold no NUL. */
  lemma TextIsInjective(f: Fingerprint, g: Fingerprint)
    requires '\0' !in f.path.text && '\0' !in g.path.text
    requires Text(f) == Text(g)
    ensures f == g
  {
    var fs, fm := Decimal.Print(f.stat.size), Decimal.PrintInt(f.stat.modified);
    var gs, gm := Decimal.Print(g.stat.size), Decimal.PrintInt(g.stat.modified);
    assert Text(f) == f.path.text + "\0" + (fs + "\0" + fm);
    assert Text(g) == g.path.text + "\0" + (gs + "\0" + gm);
    SplitAtNul(f.path.text, fs + "\0" + fm, g.path.text, gs + "\0" + gm);
    assert '\0' !in fs && '\0' !in gs;
    SplitAtNul(fs, fm, gs, gm);
    Decimal.PrintInjective(f.stat.size, g.stat.size);
    Decimal.PrintIntInjective(f.stat.modified, g.stat.modified);
  }

  predicate EndsWith(s: string, suffix: string) { |suffix| <= |s| && s[|s| - |suffix|..] == suffix }

  const PARTIAL_SUFFIXES := [".part", ".partial", ".crdownload", ".download", ".tmp", ".temp"]

  /** Hidden and partial files are not watched. */
  predicate Ignored(name: string) {
    var lowered := Lower(name);
    || (lowered != "" && lowered[0] == '.')
    || exists i :: 0 <= i < |PARTIAL_SUFFIXES| && EndsWith(lowered, PARTIAL_SUFFIXES[i])
  }

  /** The name a download is received under is never watched. */
  lemma PartNamesAreIgnored(name: string, transfer: string)
    ensures Ignored(name + "." + transfer + ".part")
  {
    var full := name + "." + transfer + ".part";
    var lowered := Lower(full);
    assert |full| == |name| + 1 + |transfer| + 5;
    assert full[|full| - 5..] == ".part";
    forall i | |full| - 5 <= i < |full| ensures lowered[i] == full[i] {
      assert full[i] == full[|full| - 5..][i - (|full| - 5)];
    }
    assert lowered[|lowered| - 5..] == PARTIAL_SUFFIXES[0];
  }

  // ---------------------------------------------------------------- retries

  /** `min(300.0, 15.0 * 2 ** min(count, 4))`. */
  function RetryDelay(retries: nat): real {
    var doubled := 15.0 * Power(if retries < 4 then retries else 4) as real;
    if doubled < 300.0 then doubled else 300.0
  }

  /** After a failure the next attempt waits 30, 60, 120 and then always 240 seconds; the cap of 300
      is never reached. */
  lemma RetryDelays(retries: nat)
    requires retries > 0
    ensures RetryDelay(retries)
         == (if retries == 1 then 30.0 else if retries == 2 then 60.0 else if retries == 3 then 120.0 else 240.0)
  {
    assert Power(1) == 2 && Power(2) == 4 && Power(3) == 8 && Power(4) == 16;
  }

  // ---------------------------------------------------------------- one watched file

  function NewEntry(f: Fingerprint, now: real): Entry {
    Entry(f, now, now, 1, Pending, None, 0, 0.0, NotTried)
  }

  /** An entry for a file whose fingerprint is processed from the start. */
  function RestingEntry(f: Fingerprint, now: real, observations: nat, status: Status): Entry {
    Entry(f, now, now, observations, status, None, 0, 0.0, NotTried)
  }

  /** The sighting is counted on a known version, and starts over on a new one. */
  function Sighted(table: Table, f: Fingerprint, now: real): Entry {
    if f.path !in table || table[f.path].mark != f then NewEntry(f, now)
    else table[f.path].(sightings := table[f.path].sightings + 1)
  }

  predicate Stable(e: Entry, config: Config, now: real) {
    e.sightings >= config.observations && now - e.lastChanged >= config.seconds
  }

  const ANDROID_RESTING := {Completed, Deleted, Baseline, UploadedFromPc}
  const PC_RESTING := {Completed, Baseline, DownloadedFromAndroid}

  /** The locked part of observing one file: the entry it leaves, in status Queueing if the file is to
      be queued now. */
  function Observe(table: Table, marks: Marks, config: Config, resting: set<Status>, f: Fingerprint, now: real): Entry {
    var e := Sighted(table, f, now);
    if f in marks then if e.status in resting then e else e.(status := Processed)
    else if e.transfer.Some? then e
    else if !Stable(e, config, now) || now < e.nextRetry then e.(status := Pending)
    else e.(status := Queueing)
  }

  /** Whether that observation goes on to queue the file. */
  predicate Queues(table: Table, marks: Marks, config: Config, f: Fingerprint, now: real) {
    var e := Sighted(table, f, now);
    f !in marks && e.transfer.None? && Stable(e, config, now) && now >= e.nextRetry
  }

  function Sweep(table: Table, present: set<Path>): Table {
    map p | p in table :: if p !in present && table[p].status in {Pending, Baseline}
      then table[p].(status := Disappeared) else table[p]
  }

  function BaselineTable(listing: map<Path, Stat>, now: real, observations: nat): Table {
    map p | p in listing :: RestingEntry(Fingerprint(p, listing[p]), now, observations, Baseline)
  }

  function BaselineMarks(listing: map<Path, Stat>, now: real): Marks {
    map p | p in listing :: Fingerprint(p, listing[p]) := now
  }

  predicate Arrived(record: Option<Transfer>) { record.Some? && record.value.outcome.Succeeded? }

  /** What reconciling makes of an entry: a running transfer shows, a finished one rests and keeps its
      transfer id, an unsuccessful one is tried again later. */
  function ReconciledEntry(e: Entry, record: Option<Transfer>, now: real): Entry {
    if record.None? then e
    else match record.value.outcome
      case Running => e.(status := InTransfer)
      case Succeeded => e.(status := Completed)
      case Ended => e.(status := Failed, retries := e.retries + 1, nextRetry := now + RetryDelay(e.retries + 1),
                       transfer := None)
  }

  /** A finished transfer is counted, and its version marked, the first time only. */
  predicate Counts(e: Entry, marks: Marks, record: Option<Transfer>) { Arrived(record) && e.mark !in marks }

  // ---------------------------------------------------------------- Android to PC

  /** `_mark_local_processed`: the file now at the path counts as handled. */
  function MarkLocal(c: Core, path: Path, found: Option<Stat>, now: real): Core {
    c.(processedLocal := if found.None? then c.processedLocal
                         else c.processedLocal[Fingerprint(path, found.value) := now],
       localObserved := if found.None? then c.localObserved
                        else c.localObserved[path := RestingEntry(Fingerprint(path, found.value), now,
                                                                  c.config.observations,
                                                                  DownloadedFromAndroid)])
  }

  /** One entry of `_reconcile_downloads`; `found` is what is at the record's destination now. The
      destination is marked on every scan, not only when the download is counted. */
  function ReconcileDownload(c: Core, path: Path, record: Option<Transfer>, found: Option<Stat>, now: real): Core
    requires path in c.observed
  {
    var e := c.observed[path];
    MarkLocal(c.(observed := c.observed[path := ReconciledEntry(e, record, now)],
                 processed := if Counts(e, c.processed, record) then c.processed[e.mark := now] else c.processed,
                 downloadsCompleted := if Counts(e, c.processed, record) then c.downloadsCompleted + 1
                   else c.downloadsCompleted),
              if record.Some? then record.value.destination else path, if Arrived(record) then found else None, now)
  }

  /** Whether that entry goes on to delete the Android source. */
  predicate Deletes(c: Core, path: Path, record: Option<Transfer>)
    requires path in c.observed
  {
    record.Some? && record.value.outcome.Succeeded? && c.config.deleteAfterVerified
      && c.observed[path].deletion.NotTried?
  }

  function DeletionEnded(c: Core, path: Path, absent: bool): Core
    requires path in c.observed
  {
    var e := c.observed[path];
    c.(observed := c.observed[path := if absent then e.(status := Deleted, deletion := VerifiedAbsent)
                              else e.(deletion := DeletionFailed)],
       deletions := if absent then c.deletions + 1 else c.deletions)
  }

  function BaselineAndroid(c: Core, listing: map<Path, Stat>, now: real): Core {
    var skip := c.baselined || c.config.includeExisting;
    c.(processed := if skip then c.processed else c.processed + BaselineMarks(listing, now),
       observed := if skip then c.observed else c.observed + BaselineTable(listing, now, c.config.observations),
       baselined := true)
  }

  function ObserveAndroid(c: Core, f: Fingerprint, now: real): Core {
    c.(observed := c.observed[f.path := Observe(c.observed, c.processed, c.config, ANDROID_RESTING, f, now)])
  }

  /** What the queue's answer makes of the entry: a transfer id, or a failed attempt. */
  function AnsweredEntry(e: Entry, started: Option<Id>, now: real): Entry {
    if started.Some? then e.(status := Queued, transfer := started)
    else e.(status := Failed, retries := e.retries + 1, nextRetry := now + RetryDelay(e.retries + 1))
  }

  function DownloadAnswered(c: Core, path: Path, started: Option<Id>, now: real): Core
    requires path in c.observed
  {
    c.(observed := c.observed[path := AnsweredEntry(c.observed[path], started, now)],
       downloadsQueued := if started.Some? then c.downloadsQueued + 1 else c.downloadsQueued)
  }

  // ---------------------------------------------------------------- PC to Android

  /** One entry of `_reconcile_uploads` up to the STAT of a completed upload. */
  function ReconcileUpload(c: Core, path: Path, record: Option<Transfer>, now: real): Core
    requires path in c.localObserved
  {
    var e := c.localObserved[path];
    c.(localObserved := c.localObserved[path := ReconciledEntry(e, record, now)],
       processedLocal := if Counts(e, c.processedLocal, record) then c.processedLocal[e.mark := now]
         else c.processedLocal,
       uploadsCompleted := if Counts(e, c.processedLocal, record) then c.uploadsCompleted + 1 else c.uploadsCompleted)
  }

  /** The STAT of the uploaded file: what is there now counts as handled. */
  function UploadStated(c: Core, destination: Path, found: Option<Stat>, now: real): Core {
    c.(processed := if found.None? then c.processed else c.processed[Fingerprint(destination, found.value) := now],
       observed := if found.None? then c.observed
                   else c.observed[destination := RestingEntry(Fingerprint(destination, found.value), now,
                                                               c.config.observations,
                                                               UploadedFromPc)])
  }

  function BaselinePc(c: Core, listing: map<Path, Stat>, now: real): Core {
    var skip := c.pcBaselined || c.config.includeExistingPc;
    c.(processedLocal := if skip then c.processedLocal else c.processedLocal + BaselineMarks(listing, now),
       localObserved := if skip then c.localObserved
         else c.localObserved + BaselineTable(listing, now, c.config.observations),
       pcBaselined := true)
  }

  function ObservePc(c: Core, f: Fingerprint, now: real): Core {
    c.(localObserved := c.localObserved[f.path := Observe(c.localObserved, c.processedLocal, c.config, PC_RESTING, f,
                                                          now)])
  }

  function UploadAnswered(c: Core, path: Path, started: Option<Id>, now: real): Core
    requires path in c.localObserved
  {
    c.(localObserved := c.localObserved[path := AnsweredEntry(c.localObserved[path], started, now)],
       uploadsQueued := if started.Some? then c.uploadsQueued + 1 else c.uploadsQueued)
  }

  // ---------------------------------------------------------------- bounds

  const MAX_PROCESSED := 5000
  const MAX_SETTLED := 500
  const SETTLED := {Baseline, Completed, Failed, Disappeared, Deleted, Processed, UploadedFromPc}

  function Settled(table: Table): set<Path> { set p | p in table && table[p].status in SETTLED }

  /** The newest fingerprints are kept, and all of them while there are at most 5000. */
  ghost predicate MarksTrimmed(before: Marks, after: Marks) {
    && after.Keys <= before.Keys && (forall f :: f in after ==> after[f] == before[f])
    && (if |before| <= MAX_PROCESSED then after == before
        else |after| == MAX_PROCESSED
             && forall f, g :: f in after && g in before && g !in after ==> before[g] <= before[f])
  }

  /** Unsettled entries stay; of the settled ones the 500 changed last stay. */
  ghost predicate TableTrimmed(before: Table, after: Table) {
    && after.Keys <= before.Keys && (forall p :: p in after ==> after[p] == before[p])
    && (if |Settled(before)| <= MAX_SETTLED then after == before
        else before.Keys - after.Keys <= Settled(before) && |Settled(after)| == MAX_SETTLED
             && forall p, q :: p in Settled(after) && q in before && q !in after ==>
                  before[q].lastChanged <= before[p].lastChanged)
  }

  ghost predicate Within(before: Table, after: Table) {
    after.Keys <= before.Keys && forall p :: p in after ==> after[p] == before[p]
  }

  /** Entries may be gone, but no mark is. */
  ghost predicate Thinned(c: Core, c': Core) {
    c' == c.(observed := c'.observed, localObserved := c'.localObserved)
    && Within(c.observed, c'.observed) && Within(c.localObserved, c'.localObserved)
  }

  ghost predicate Trimmed(c: Core, c': Core) {
    && c' == c.(observed := c'.observed, localObserved := c'.localObserved,
                processed := c'.processed, processedLocal := c'.processedLocal)
    && MarksTrimmed(c.processed, c'.processed) && MarksTrimmed(c.processedLocal, c'.processedLocal)
    && TableTrimmed(c.observed, c'.observed) && TableTrimmed(c.localObserved, c'.localObserved)
  }
}
