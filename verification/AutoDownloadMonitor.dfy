/** The monitor as an object: its tables and counters are fields, its methods the uninterrupted blocks
    of a scan, each moving the fields exactly as the model says. */
module AutoDownloadMonitor {
  import opened Wrappers
  import opened MonitorModel

  /** The snapshot a list of directory entries stands for; names in one directory are distinct. */
  function ListingOf(files: seq<Fingerprint>): map<Path, Stat> {
    if files == [] then map[]
    else ListingOf(files[..|files| - 1])[files[|files| - 1].path := files[|files| - 1].stat]
  }

  lemma ListingGrows(files: seq<Fingerprint>, i: nat)
    requires i < |files|
    requires forall j :: 0 <= j < i ==> files[j].path != files[i].path
    ensures ListingOf(files[..i + 1]) == ListingOf(files[..i])[files[i].path := files[i].stat]
    ensures files[i].path !in ListingOf(files[..i])
  {
    assert files[..i + 1][..i] == files[..i];
    ListingMembers(files[..i]);
  }

  lemma MarksGrow(listing: map<Path, Stat>, f: Fingerprint, now: real, marks: Marks)
    requires f.path !in listing
    ensures marks + BaselineMarks(listing[f.path := f.stat], now) == (marks + BaselineMarks(listing, now))[f := now]
  {
    assert BaselineMarks(listing[f.path := f.stat], now) == BaselineMarks(listing, now)[f := now];
  }

  lemma TableGrows(listing: map<Path, Stat>, f: Fingerprint, now: real, n: nat, table: Table)
    requires f.path !in listing
    ensures table + BaselineTable(listing[f.path := f.stat], now, n)
         == (table + BaselineTable(listing, now, n))[f.path := RestingEntry(f, now, n, Baseline)]
  {
    assert BaselineTable(listing[f.path := f.stat], now, n)
        == BaselineTable(listing, now, n)[f.path := RestingEntry(f, now, n, Baseline)];
  }

  lemma {:induction false} ListingMembers(files: seq<Fingerprint>)
    ensures forall p :: p in ListingOf(files) ==> exists j :: 0 <= j < |files| && files[j].path == p
  {
    if files != [] {
      var front := files[..|files| - 1];
      ListingMembers(front);
      forall p | p in ListingOf(files) ensures exists j :: 0 <= j < |files| && files[j].path == p {
        if p in ListingOf(front) {
          var j :| 0 <= j < |front| && front[j].path == p;
          assert files[j].path == p;
        } else {
          assert files[|files| - 1].path == p;
        }
      }
    }
  }

  /** Versions once handled stay handled, as the theorems about whole runs need of every block. */
  ghost predicate HandledStay(c: Core, c': Core) {
    c.config == c'.config && c.processed.Keys <= c'.processed.Keys && c.processedLocal.Keys <= c'.processedLocal.Keys
  }

  class Monitor {
    const config: Config
    var observed: Table
    var localObserved: Table
    var processed: Marks
    var processedLocal: Marks
    var baselined: bool
    var pcBaselined: bool
    var downloadsQueued: nat
    var downloadsCompleted: nat
    var uploadsQueued: nat
    var uploadsCompleted: nat
    var deletions: nat

    ghost function View(): Core
      reads this
    {
      Core(config, observed, localObserved, processed, processedLocal, baselined, pcBaselined,
           downloadsQueued, downloadsCompleted, uploadsQueued, uploadsCompleted, deletions)
    }

    constructor (config: Config)
      ensures View() == Core(config, map[], map[], map[], map[], false, false, 0, 0, 0, 0, 0)
    {
      this.config := config;
      observed, localObserved, processed, processedLocal := map[], map[], map[], map[];
      baselined, pcBaselined := false, false;
      downloadsQueued, downloadsCompleted, uploadsQueued, uploadsCompleted, deletions := 0, 0, 0, 0, 0;
    }

    // -------------------------------------------------------------- reconciling

    method MarkLocalProcessed(path: Path, found: Option<Stat>, now: real)
      modifies this
      ensures View() == MarkLocal(old(View()), path, found, now)
      ensures HandledStay(old(View()), View())
    {
      if found.None? { return; }
      var f := Fingerprint(path, found.value);
      processedLocal := processedLocal[f := now];
      localObserved := localObserved[path := RestingEntry(f, now, config.observations, DownloadedFromAndroid)];
    }

    /** One entry of the reconcile loop; the answer says whether the Android source is to be deleted. */
    method ReconcileDownload(path: Path, record: Option<Transfer>, found: Option<Stat>, now: real)
      returns (delete: bool)
      requires path in observed
      modifies this
      ensures View() == MonitorModel.ReconcileDownload(old(View()), path, record, found, now)
      ensures delete <==> Deletes(old(View()), path, record)
      ensures HandledStay(old(View()), View())
    {
      if record.None? { return false; }
      var e := observed[path];
      match record.value.outcome {
        case Running =>
          observed := observed[path := e.(status := InTransfer)];
          return false;
        case Ended =>
          e := e.(status := Failed, transfer := None, retries := e.retries + 1);
          observed := observed[path := e.(nextRetry := now + RetryDelay(e.retries))];
          return false;
        case Succeeded =>
          if e.mark !in processed {
            processed := processed[e.mark := now];
            downloadsCompleted := downloadsCompleted + 1;
          }
          observed := observed[path := e.(status := Completed)];
          MarkLocalProcessed(record.value.destination, found, now);
          return config.deleteAfterVerified && e.deletion.NotTried?;
      }
    }

    method DeletionEnded(path: Path, absent: bool)
      requires path in observed
      modifies this
      ensures View() == MonitorModel.DeletionEnded(old(View()), path, absent)
      ensures HandledStay(old(View()), View())
    {
      if absent {
        observed := observed[path := observed[path].(status := Deleted, deletion := VerifiedAbsent)];
        deletions := deletions + 1;
      } else {
        observed := observed[path := observed[path].(deletion := DeletionFailed)];
      }
    }

    /** The answer says whether the uploaded file is to be stated. */
    method ReconcileUpload(path: Path, record: Option<Transfer>, now: real) returns (stat: bool)
      requires path in localObserved
      modifies this
      ensures View() == MonitorModel.ReconcileUpload(old(View()), path, record, now)
      ensures stat <==> Arrived(record)
      ensures HandledStay(old(View()), View())
    {
      var e := localObserved[path];
      if record.None? {
        assert localObserved == localObserved[path := e];
        return false;
      }
      match record.value.outcome {
        case Running =>
          localObserved := localObserved[path := e.(status := InTransfer)];
          return false;
        case Ended =>
          e := e.(status := Failed, transfer := None, retries := e.retries + 1);
          localObserved := localObserved[path := e.(nextRetry := now + RetryDelay(e.retries))];
          return false;
        case Succeeded =>
          if e.mark !in processedLocal {
            processedLocal := processedLocal[e.mark := now];
            uploadsCompleted := uploadsCompleted + 1;
          }
          localObserved := localObserved[path := e.(status := Completed)];
          return true;
      }
    }

    method UploadStated(destination: Path, found: Option<Stat>, now: real)
      modifies this
      ensures View() == MonitorModel.UploadStated(old(View()), destination, found, now)
      ensures HandledStay(old(View()), View())
    {
      if found.None? { return; }
      var f := Fingerprint(destination, found.value);
      processed := processed[f := now];
      observed := observed[destination := RestingEntry(f, now, config.observations, UploadedFromPc)];
    }

    // -------------------------------------------------------------- scanning

    /** The listing of the Android folder: the first one is the baseline, unless existing files count. */
    method ScanAndroid(files: seq<Fingerprint>, now: real) returns (goOn: bool)
      requires forall i, j :: 0 <= i < j < |files| ==> files[i].path != files[j].path
      modifies this
      ensures View() == BaselineAndroid(old(View()), ListingOf(files), now)
      ensures goOn <==> old(baselined) || config.includeExisting
      ensures HandledStay(old(View()), View())
    {
      if baselined || config.includeExisting {
        baselined := true;
        return true;
      }
      ghost var table, marks := observed, processed;
      var i := 0;
      assert observed == table + BaselineTable(ListingOf(files[..0]), now, config.observations);
      assert processed == marks + BaselineMarks(ListingOf(files[..0]), now);
      while i < |files|
        invariant i <= |files|
        invariant observed == table + BaselineTable(ListingOf(files[..i]), now, config.observations)
        invariant processed == marks + BaselineMarks(ListingOf(files[..i]), now)
        invariant View() == old(View()).(observed := observed, processed := processed)
      {
        ListingGrows(files, i);
        MarksGrow(ListingOf(files[..i]), files[i], now, marks);
        TableGrows(ListingOf(files[..i]), files[i], now, config.observations, table);
        processed := processed[files[i] := now];
        observed := observed[files[i].path := RestingEntry(files[i], now, config.observations, Baseline)];
        i := i + 1;
      }
      assert files[..|files|] == files;
      baselined := true;
      return false;
    }

    method ScanPc(files: seq<Fingerprint>, now: real) returns (goOn: bool)
      requires forall i, j :: 0 <= i < j < |files| ==> files[i].path != files[j].path
      modifies this
      ensures View() == BaselinePc(old(View()), ListingOf(files), now)
      ensures goOn <==> old(pcBaselined) || config.includeExistingPc
      ensures HandledStay(old(View()), View())
    {
      if pcBaselined || config.includeExistingPc {
        pcBaselined := true;
        return true;
      }
      ghost var table, marks := localObserved, processedLocal;
      var i := 0;
      assert localObserved == table + BaselineTable(ListingOf(files[..0]), now, config.observations);
      assert processedLocal == marks + BaselineMarks(ListingOf(files[..0]), now);
      while i < |files|
        invariant i <= |files|
        invariant localObserved == table + BaselineTable(ListingOf(files[..i]), now, config.observations)
        invariant processedLocal == marks + BaselineMarks(ListingOf(files[..i]), now)
        invariant View() == old(View()).(localObserved := localObserved, processedLocal := processedLocal)
      {
        ListingGrows(files, i);
        MarksGrow(ListingOf(files[..i]), files[i], now, marks);
        TableGrows(ListingOf(files[..i]), files[i], now, config.observations, table);
        processedLocal := processedLocal[files[i] := now];
        localObserved := localObserved[files[i].path := RestingEntry(files[i], now, config.observations, Baseline)];
        i := i + 1;
      }
      assert files[..|files|] == files;
      pcBaselined := true;
      return false;
    }

    /** The locked part of observing one file; the answer says whether to queue it. */
    method ObserveEntry(table: Table, marks: Marks, resting: set<Status>, f: Fingerprint, now: real)
      returns (e: Entry, queues: bool)
      ensures e == Observe(table, marks, config, resting, f, now)
      ensures queues <==> Queues(table, marks, config, f, now)
    {
      if f.path !in table || table[f.path].mark != f {
        e := NewEntry(f, now);
      } else {
        e := table[f.path];
        e := e.(sightings := e.sightings + 1);
      }
      if f in marks {
        if e.status !in resting { e := e.(status := Processed); }
        return e, false;
      }
      if e.transfer.Some? { return e, false; }
      if !Stable(e, config, now) || now < e.nextRetry {
        return e.(status := Pending), false;
      }
      return e.(status := Queueing), true;
    }

    method ObserveAndroidEntry(f: Fingerprint, now: real) returns (queues: bool)
      modifies this
      ensures View() == ObserveAndroid(old(View()), f, now)
      ensures queues <==> Queues(old(observed), old(processed), config, f, now)
      ensures HandledStay(old(View()), View())
    {
      var e;
      e, queues := ObserveEntry(observed, processed, ANDROID_RESTING, f, now);
      observed := observed[f.path := e];
    }

    method ObservePcEntry(f: Fingerprint, now: real) returns (queues: bool)
      modifies this
      ensures View() == ObservePc(old(View()), f, now)
      ensures queues <==> Queues(old(localObserved), old(processedLocal), config, f, now)
      ensures HandledStay(old(View()), View())
    {
      var e;
      e, queues := ObserveEntry(localObserved, processedLocal, PC_RESTING, f, now);
      localObserved := localObserved[f.path := e];
    }

    /** The queue took the file on, or refused it. */
    method DownloadAnswered(path: Path, started: Option<Id>, now: real)
      requires path in observed
      modifies this
      ensures View() == MonitorModel.DownloadAnswered(old(View()), path, started, now)
      ensures HandledStay(old(View()), View())
    {
      var e := observed[path];
      if started.None? {
        e := e.(status := Failed, retries := e.retries + 1);
        observed := observed[path := e.(nextRetry := now + RetryDelay(e.retries))];
      } else {
        observed := observed[path := e.(status := Queued, transfer := started)];
        downloadsQueued := downloadsQueued + 1;
      }
    }

    method UploadAnswered(path: Path, started: Option<Id>, now: real)
      requires path in localObserved
      modifies this
      ensures View() == MonitorModel.UploadAnswered(old(View()), path, started, now)
      ensures HandledStay(old(View()), View())
    {
      var e := localObserved[path];
      if started.None? {
        e := e.(status := Failed, retries := e.retries + 1);
        localObserved := localObserved[path := e.(nextRetry := now + RetryDelay(e.retries))];
      } else {
        localObserved := localObserved[path := e.(status := Queued, transfer := started)];
        uploadsQueued := uploadsQueued + 1;
      }
    }

    /** The loop over one table at the end of its scan. */
    method SweepTable(table: Table, present: set<Path>) returns (swept: Table)
      ensures swept == Sweep(table, present)
    {
      swept := table;
      var rest := table.Keys;
      while rest != {}
        invariant rest <= table.Keys && swept.Keys == table.Keys
        invariant forall p :: p in table ==> swept[p] == if p in rest then table[p] else Sweep(table, present)[p]
        decreases |rest|
      {
        var p :| p in rest;
        if p !in present && table[p].status in {Pending, Baseline} {
          swept := swept[p := table[p].(status := Disappeared)];
        }
        rest := rest - {p};
      }
    }

    method FinishAndroid(present: set<Path>)
      modifies this
      ensures View() == old(View()).(observed := Sweep(old(observed), present))
      ensures HandledStay(old(View()), View())
    {
      observed := SweepTable(observed, present);
    }

    method FinishPc(present: set<Path>)
      modifies this
      ensures View() == old(View()).(localObserved := Sweep(old(localObserved), present))
      ensures HandledStay(old(View()), View())
    {
      localObserved := SweepTable(localObserved, present);
    }
  }
}
