/** Where the watched folders' promises end: whole runs, each of them undisturbed, in which a download is
    sent back, is seen before it is marked, or an edit of it is lost. */
module MonitorLimits {
  import opened Wrappers
  import opened MonitorModel
  import opened MonitorSystem
  import opened LoopFreedom

  ghost predicate Runs(s: System, events: seq<Event>) { Legal(s, events) && UndisturbedRun(s, events) }

  lemma One(s: System, e: Event)
    requires Enabled(s, e) && Undisturbed(s, e)
    ensures Runs(s, [e]) && Execute(s, [e]) == Apply(s, e)
  {
    assert [e][1..] == [];
  }

  lemma {:induction false} Append(s: System, a: seq<Event>, b: seq<Event>)
    requires Runs(s, a) && Runs(Execute(s, a), b)
    ensures Runs(s, a + b) && Execute(s, a + b) == Execute(Execute(s, a), b)
    decreases |a|
  {
    if a == [] {
      assert a + b == b;
    } else {
      Append(Apply(s, a[0]), a[1..], b);
      assert (a + b)[0] == a[0] && (a + b)[1..] == a[1..] + b;
    }
  }

  /** Two events, and three. */
  lemma Two(s: System, e: Event, f: Event)
    requires Enabled(s, e) && Undisturbed(s, e) && Enabled(Apply(s, e), f) && Undisturbed(Apply(s, e), f)
    ensures Runs(s, [e] + [f]) && Execute(s, [e] + [f]) == Apply(Apply(s, e), f)
  {
    One(s, e);
    One(Apply(s, e), f);
    Append(s, [e], [f]);
  }

  function OpenEvents(now: real, android: bool): seq<Event> {
    ([BeginScan(now)] + [EndDownloads]) + [EndUploads(android)]
  }

  /** A scan with nothing to reconcile comes to its first listing. */
  lemma Opens(s: System, now: real)
    requires s.phase.Idle? && now >= s.now && s.core.config.pcEnabled
    requires Awaiting(s.core.observed) == {} && Awaiting(s.core.localObserved) == {}
    ensures Runs(s, OpenEvents(now, s.core.config.enabled))
    ensures Execute(s, OpenEvents(now, s.core.config.enabled))
         == s.(phase := if s.core.config.enabled then ListingAndroid else ListingPc, now := now)
  {
    var s2 := s.(phase := Uploads({}), now := now);
    Two(s, BeginScan(now), EndDownloads);
    assert Apply(Apply(s, BeginScan(now)), EndDownloads) == s2;
    One(s2, EndUploads(s.core.config.enabled));
    Append(s, [BeginScan(now)] + [EndDownloads], [EndUploads(s.core.config.enabled)]);
  }

  /** The PC folder holds one visible file, and is listed after the baseline or without one. */
  lemma ListsOne(s: System, x: Path, stat: Stat)
    requires s.phase.ListingPc? && (s.core.pcBaselined || s.core.config.includeExistingPc)
    requires s.world.local == map[x := stat] && !Ignored(BaseName(x.text))
    ensures Runs(s, [ListPc])
    ensures Execute(s, [ListPc]) == s.(core := s.core.(pcBaselined := true), phase := Pc(map[x := stat], {x}))
  {
    One(s, ListPc);
    assert Visible(s.world.local) == map[x := stat];
    assert map[x := stat].Keys == {x};
  }

  /** The scan is over once its listing is worked off, and no entry is left without its file. */
  lemma Closes(s: System)
    requires s.phase.Pc? && s.phase.left == {} && s.core.localObserved.Keys <= s.phase.listing.Keys
    ensures Runs(s, [EndPc] + [Finish(s.core)]) && Execute(s, [EndPc] + [Finish(s.core)]) == s.(phase := Idle)
  {
    assert Sweep(s.core.localObserved, s.phase.listing.Keys) == s.core.localObserved;
    Two(s, EndPc, Finish(s.core));
  }

  function CopyEvents(x: Path, id: Id): seq<Event> { ([SeePc(x)] + [CopyTaken]) + [SpoolEnds(Some(id))] }

  /** A file that is to be queued is copied and sent as it is on disk, whatever was listed. */
  lemma CopiesWhatIsThere(s: System, x: Path, id: Id)
    requires Enabled(s, SeePc(x)) && NewId(s, Some(id)) && x in s.world.local
    requires Queues(s.core.localObserved, s.core.processedLocal, s.core.config, Fingerprint(x, s.phase.listing[x]),
                    s.now)
    ensures Runs(s, CopyEvents(x, id))
    ensures Execute(s, CopyEvents(x, id)).history.sent == s.history.sent + {Fingerprint(x, s.world.local[x])}
    ensures Execute(s, CopyEvents(x, id)).history.delivered == s.history.delivered
  {
    var f, stat := Fingerprint(x, s.phase.listing[x]), s.world.local[x];
    var s1 := Apply(s, SeePc(x));
    assert s1.phase == Copying(f, stat, s.phase.listing, s.phase.left - {x}) && s1.world == s.world;
    Two(s, SeePc(x), CopyTaken);
    var s2 := Apply(s1, CopyTaken);
    assert s2.phase == Copied(f, stat, stat, s.phase.listing, s.phase.left - {x}) && s2.world == s.world;
    One(s2, SpoolEnds(Some(id)));
    Append(s, [SeePc(x)] + [CopyTaken], [SpoolEnds(Some(id))]);
  }

  // ---------------------------------------------------------------- a download the monitor did not start

  /** The PC folder is watched, the Android folder is not; what is there before is left alone. */
  function PcOnly(): Config { Config(false, true, 2, 1.0, false, false, false) }

  function Baselined(): Core { Core(PcOnly(), map[], map[], map[], map[], false, true, 0, 0, 0, 0, 0) }

  function BaselineScan(): seq<Event> { OpenEvents(0.0, false) + ([ListPc] + [Finish(Baselined())]) }

  function Empty(): System { Initial(PcOnly(), map[], map[]) }

  lemma TakesTheBaseline()
    ensures Runs(Empty(), BaselineScan()) && Execute(Empty(), BaselineScan()) == Empty().(core := Baselined())
  {
    var s := Empty();
    Opens(s, 0.0);
    var s1 := s.(phase := ListingPc, now := 0.0);
    assert Visible(map[]) == map[];
    var s2 := Apply(s1, ListPc);
    assert s2.core.localObserved == map[] && s2.core.processedLocal == map[];
    Two(s1, ListPc, Finish(Baselined()));
    Append(s, OpenEvents(0.0, false), [ListPc] + [Finish(Baselined())]);
  }

  function Foreign(x: Path, stat: Stat): seq<Event> { [StartDownload(0)] + [DownloadDone(0, x, stat)] }

  /** The folder holds just the file that the download brought. */
  ghost predicate Brought(s: System, x: Path, stat: Stat) {
    && s.world.local == map[x := stat] && s.world.records == map[0 := Transfer(Succeeded, x)]
    && s.history.delivered == map[Fingerprint(x, stat) := 0] && s.history.sent == {} && s.history.queued == {}
    && s.history.manual == {0}
  }

  lemma SomebodyDownloads(x: Path, stat: Stat)
    ensures Runs(Empty().(core := Baselined()), Foreign(x, stat))
    ensures var s' := Execute(Empty().(core := Baselined()), Foreign(x, stat));
            s'.core == Baselined() && s'.phase == Idle && s'.now == 0.0 && Brought(s', x, stat)
  {
    var s := Empty().(core := Baselined());
    Two(s, StartDownload(0), DownloadDone(0, x, stat));
  }

  function SeenOnce(x: Path, stat: Stat): Core {
    Baselined().(localObserved := map[x := NewEntry(Fingerprint(x, stat), 1.0)])
  }

  function FirstLook(x: Path, stat: Stat): seq<Event> {
    OpenEvents(1.0, false) + ([ListPc] + ([SeePc(x)] + ([EndPc] + [Finish(SeenOnce(x, stat))])))
  }

  lemma LooksOnce(s: System, x: Path, stat: Stat)
    requires s.core == Baselined() && s.phase == Idle && s.now == 0.0 && Brought(s, x, stat)
             && !Ignored(BaseName(x.text))
    ensures Runs(s, FirstLook(x, stat))
    ensures var s' := Execute(s, FirstLook(x, stat));
            s'.core == SeenOnce(x, stat) && s'.phase == Idle && s'.now == 1.0 && Brought(s', x, stat)
  {
    Opens(s, 1.0);
    var s1 := s.(phase := ListingPc, now := 1.0);
    ListsOne(s1, x, stat);
    var s2 := s1.(phase := Pc(map[x := stat], {x}));
    assert s2 == Execute(s1, [ListPc]);
    One(s2, SeePc(x));
    var s3 := Apply(s2, SeePc(x));
    assert s3.core == SeenOnce(x, stat) && s3.phase == Pc(map[x := stat], {});
    Closes(s3);
    Append(s2, [SeePc(x)], [EndPc] + [Finish(s3.core)]);
    Append(s1, [ListPc], [SeePc(x)] + ([EndPc] + [Finish(s3.core)]));
    Append(s, OpenEvents(1.0, false), [ListPc] + ([SeePc(x)] + ([EndPc] + [Finish(s3.core)])));
  }

  function SecondLook(x: Path): seq<Event> { OpenEvents(2.0, false) + ([ListPc] + CopyEvents(x, 1)) }

  lemma LooksAgain(s: System, x: Path, stat: Stat)
    requires s.core == SeenOnce(x, stat) && s.phase == Idle && s.now == 1.0 && Brought(s, x, stat)
             && !Ignored(BaseName(x.text))
    ensures Runs(s, SecondLook(x))
    ensures Execute(s, SecondLook(x)).history.sent == {Fingerprint(x, stat)}
    ensures Execute(s, SecondLook(x)).history.delivered == map[Fingerprint(x, stat) := 0]
  {
    Opens(s, 2.0);
    var s1 := s.(phase := ListingPc, now := 2.0);
    ListsOne(s1, x, stat);
    var s2 := s1.(phase := Pc(map[x := stat], {x}));
    assert s2 == Execute(s1, [ListPc]);
    CopiesWhatIsThere(s2, x, 1);
    Append(s1, [ListPc], CopyEvents(x, 1));
    Append(s, OpenEvents(2.0, false), [ListPc] + CopyEvents(x, 1));
  }

  function ForeignRun(x: Path, stat: Stat): seq<Event> {
    BaselineScan() + (Foreign(x, stat) + (FirstLook(x, stat) + SecondLook(x)))
  }

  /** A download started through the API into the watched folder: with no entry of another finished download at its
      path nothing marks it, and whatever its name, two scans later it is sent back to the phone. */
  lemma ForeignDownloadBouncesBack(x: Path, stat: Stat)
    requires !Ignored(BaseName(x.text))
    ensures Runs(Empty(), ForeignRun(x, stat))
    ensures var h := Execute(Empty(), ForeignRun(x, stat)).history;
            h.sent == {Fingerprint(x, stat)} && h.delivered == map[Fingerprint(x, stat) := 0]
  {
    var s1 := Empty().(core := Baselined());
    var s2 := Execute(s1, Foreign(x, stat));
    TakesTheBaseline();
    SomebodyDownloads(x, stat);
    LooksOnce(s2, x, stat);
    LooksAgain(Execute(s2, FirstLook(x, stat)), x, stat);
    Append(s2, FirstLook(x, stat), SecondLook(x));
    Append(s1, Foreign(x, stat), FirstLook(x, stat) + SecondLook(x));
    Append(Empty(), BaselineScan(), Foreign(x, stat) + (FirstLook(x, stat) + SecondLook(x)));
  }

  // ---------------------------------------------------------------- a download that lands during the scan

  /** A download lands at a path that was listed and whose turn is still to come. It is copied in place of
      what was listed exactly if the listed version is due; then it can be sent back. */
  lemma LateDeliveryBouncesExactlyIfTheListedVersionIsDue(s: System, id: Id, x: Path, stat: Stat, copy: Id)
    requires s.phase.Pc? && x in s.phase.left && x in s.phase.listing
    requires Enabled(s, DownloadDone(id, x, stat)) && Undisturbed(s, DownloadDone(id, x, stat)) && NewId(s, Some(copy))
    ensures var s' := Apply(s, DownloadDone(id, x, stat));
            var due := Queues(s.core.localObserved, s.core.processedLocal, s.core.config,
                              Fingerprint(x, s.phase.listing[x]), s.now);
            && (SeePcStep(s', x).phase.Copying? <==> due)
            && (due ==> Runs(s', CopyEvents(x, copy))
                        && Fingerprint(x, stat) in Execute(s', CopyEvents(x, copy)).history.sent
                        && Fingerprint(x, stat) in Execute(s', CopyEvents(x, copy)).history.delivered)
  {
    var s' := Apply(s, DownloadDone(id, x, stat));
    if Queues(s.core.localObserved, s.core.processedLocal, s.core.config, Fingerprint(x, s.phase.listing[x]), s.now) {
      CopiesWhatIsThere(s', x, copy);
    }
  }

  /** A download lands at a path whose copy has begun: the file was stated, and the copy is still to be taken. */
  lemma TheCopyIsOfTheDownload(s: System, id: Id, stat: Stat)
    requires s.phase.Copying? && s.phase.file.path in s.core.localObserved
    requires Enabled(s, DownloadDone(id, s.phase.file.path, stat))
    ensures var x, delivered := s.phase.file.path, Apply(s, DownloadDone(id, s.phase.file.path, stat));
            && Enabled(delivered, CopyTaken)
            && var copied := Apply(delivered, CopyTaken);
               && copied.phase == Copied(s.phase.file, s.phase.before, stat, s.phase.listing, s.phase.left)
               && copied.core == s.core && copied.world.local == s.world.local[x := stat]
               && copied.history.delivered == s.history.delivered[Fingerprint(x, stat) := id]
  {
  }

  /** What is at the path when the file is stated again decides: the copy is queued exactly if that is the version
      stated before and the copy is as long. */
  lemma TheComparisonAfterTheCopy(s: System, found: Option<Stat>, copy: Id)
    requires s.phase.Copied? && s.phase.file.path in s.core.localObserved && NewId(s, Some(copy))
    ensures var x, edited := s.phase.file.path, Apply(s, EditLocal(s.phase.file.path, found));
            && (Enabled(edited, SpoolEnds(Some(copy))) <==>
                  found == Some(s.phase.before) && s.phase.copy.size == s.phase.before.size)
            && (Enabled(edited, SpoolEnds(Some(copy))) ==>
                  Fingerprint(x, s.phase.copy) in Apply(edited, SpoolEnds(Some(copy))).history.sent)
  {
    assert Apply(s, EditLocal(s.phase.file.path, found)).phase == s.phase;
  }

  /** Such a download is sent back exactly if it is as long as the version stated before and that version is back in
      time. Putting it back does not disturb the surroundings if it is not itself a delivered one. */
  lemma DeliveryUnderTheCopyBouncesExactlyIfAsLong(s: System, id: Id, stat: Stat, found: Option<Stat>, copy: Id)
    requires s.phase.Copying? && s.phase.file.path in s.core.localObserved && s.phase.file.path !in s.phase.left
    requires Enabled(s, DownloadDone(id, s.phase.file.path, stat)) && NewId(s, Some(copy))
    ensures Enabled(Apply(s, DownloadDone(id, s.phase.file.path, stat)), CopyTaken)
    ensures var x, before := s.phase.file.path, s.phase.before;
            var copied := Apply(Apply(s, DownloadDone(id, x, stat)), CopyTaken);
            var edited := Apply(copied, EditLocal(x, found));
            && (Enabled(edited, SpoolEnds(Some(copy))) <==> found == Some(before) && stat.size == before.size)
            && (Enabled(edited, SpoolEnds(Some(copy))) ==>
                  Fingerprint(x, stat) in Apply(edited, SpoolEnds(Some(copy))).history.sent)
            && (found == Some(before) && Fingerprint(x, before) !in copied.history.delivered ==>
                  Undisturbed(copied, EditLocal(x, found)))
  {
    TheCopyIsOfTheDownload(s, id, stat);
    TheComparisonAfterTheCopy(Apply(Apply(s, DownloadDone(id, s.phase.file.path, stat)), CopyTaken), found, copy);
  }

  function BothWays(): Config { Config(true, true, 2, 1.0, true, true, false) }

  /** The phone holds `p`, the PC folder `x`, and the first scan has seen both. */
  function SeenBoth(p: Path, remote: Stat, x: Path, local: Stat): Core {
    Core(BothWays(), map[p := NewEntry(Fingerprint(p, remote), 0.0)], map[x := NewEntry(Fingerprint(x, local), 0.0)],
         map[], map[], true, true, 0, 0, 0, 0, 0)
  }

  function Pair(p: Path, remote: Stat, x: Path, local: Stat): System {
    Initial(BothWays(), map[p := remote], map[x := local])
  }

  ghost predicate BothVisible(p: Path, x: Path) { !Ignored(BaseName(p.text)) && !Ignored(BaseName(x.text)) }

  /** No transfer has been started, and the files are the first ones. */
  ghost predicate Untouched(s: System, p: Path, remote: Stat, x: Path, local: Stat) {
    && s.world == World(map[], map[p := remote], map[x := local]) && s.history.localMarks == {Fingerprint(x, local)}
    && s.history.delivered == map[] && s.history.sent == {} && s.history.queued == {} && s.history.manual == {}
    && s.history.closed == {} && s.history.sources == map[]
  }

  lemma PairIsUntouched(p: Path, remote: Stat, x: Path, local: Stat)
    ensures Untouched(Pair(p, remote, x, local), p, remote, x, local)
  {
    var files := map[x := local];
    assert files.Keys == {x} && files[x] == local;
    assert (set q | q in files :: Fingerprint(q, files[q])) == {Fingerprint(x, local)};
  }

  lemma ListsAndroid(s: System, p: Path, remote: Stat)
    requires s.phase.ListingAndroid? && s.core.config.includeExisting
    requires s.world.remote == map[p := remote] && !Ignored(BaseName(p.text))
    ensures Runs(s, [ListAndroid])
    ensures Execute(s, [ListAndroid]) == s.(core := s.core.(baselined := true), phase := Android(map[p := remote], {p}))
  {
    One(s, ListAndroid);
    assert Visible(s.world.remote) == map[p := remote];
    assert map[p := remote].Keys == {p};
  }

  lemma EndsAndroid(s: System)
    requires s.phase.Android? && s.phase.left == {} && s.core.config.pcEnabled
             && s.core.observed.Keys <= s.phase.listing.Keys
    ensures Runs(s, [EndAndroid]) && Execute(s, [EndAndroid]) == s.(phase := ListingPc)
  {
    assert Sweep(s.core.observed, s.phase.listing.Keys) == s.core.observed;
    One(s, EndAndroid);
  }

  function OnlyAndroidSeen(p: Path, remote: Stat): Core {
    Core(BothWays(), map[p := NewEntry(Fingerprint(p, remote), 0.0)], map[], map[], map[], true, false, 0, 0, 0, 0, 0)
  }

  /** The first sighting of the file on the phone. */
  lemma SeesThePhone(s: System, p: Path, remote: Stat)
    requires s.phase == Android(map[p := remote], {p}) && s.now == 0.0 && s.history.queued == {}
    requires s.core == OnlyAndroidSeen(p, remote).(observed := map[])
    ensures Runs(s, [SeeAndroid(p, None)])
    ensures var s' := Execute(s, [SeeAndroid(p, None)]);
            && s'.core == OnlyAndroidSeen(p, remote) && s'.phase == Android(map[p := remote], {}) && s'.now == 0.0
            && s'.world == s.world && s'.history == s.history.(androidLog := s'.history.androidLog)
  {
    One(s, SeeAndroid(p, None));
    assert SeeAndroidStep(s, p, None).core == OnlyAndroidSeen(p, remote);
  }

  function FirstAndroid(p: Path): seq<Event> {
    OpenEvents(0.0, true) + ([ListAndroid] + ([SeeAndroid(p, None)] + [EndAndroid]))
  }

  lemma LooksAtThePhone(p: Path, remote: Stat, x: Path, local: Stat)
    requires BothVisible(p, x)
    ensures Runs(Pair(p, remote, x, local), FirstAndroid(p))
    ensures var s' := Execute(Pair(p, remote, x, local), FirstAndroid(p));
            && s'.core == OnlyAndroidSeen(p, remote) && s'.phase == ListingPc && s'.now == 0.0
            && Untouched(s', p, remote, x, local)
  {
    var s := Pair(p, remote, x, local);
    Opens(s, 0.0);
    var s1 := s.(phase := ListingAndroid, now := 0.0);
    ListsAndroid(s1, p, remote);
    var s2 := Execute(s1, [ListAndroid]);
    PairIsUntouched(p, remote, x, local);
    SeesThePhone(s2, p, remote);
    var s3 := Execute(s2, [SeeAndroid(p, None)]);
    EndsAndroid(s3);
    Append(s2, [SeeAndroid(p, None)], [EndAndroid]);
    Append(s1, [ListAndroid], [SeeAndroid(p, None)] + [EndAndroid]);
    Append(s, OpenEvents(0.0, true), [ListAndroid] + ([SeeAndroid(p, None)] + [EndAndroid]));
  }

  function FirstPc(p: Path, remote: Stat, x: Path, local: Stat): seq<Event> {
    [ListPc] + ([SeePc(x)] + ([EndPc] + [Finish(SeenBoth(p, remote, x, local))]))
  }

  lemma LooksAtThePc(s: System, p: Path, remote: Stat, x: Path, local: Stat)
    requires s.core == OnlyAndroidSeen(p, remote) && s.phase == ListingPc && s.now == 0.0
    requires Untouched(s, p, remote, x, local) && BothVisible(p, x)
    ensures Runs(s, FirstPc(p, remote, x, local))
    ensures var s' := Execute(s, FirstPc(p, remote, x, local));
            && s'.core == SeenBoth(p, remote, x, local) && s'.phase == Idle && s'.now == 0.0
            && Untouched(s', p, remote, x, local)
  {
    ListsOne(s, x, local);
    var s2 := Execute(s, [ListPc]);
    One(s2, SeePc(x));
    var s3 := Apply(s2, SeePc(x));
    assert s3.core == SeenBoth(p, remote, x, local) && s3.phase == Pc(map[x := local], {});
    Closes(s3);
    Append(s2, [SeePc(x)], [EndPc] + [Finish(s3.core)]);
    Append(s, [ListPc], [SeePc(x)] + ([EndPc] + [Finish(s3.core)]));
  }

  function Started(p: Path, remote: Stat, x: Path, local: Stat): Core {
    var e := Entry(Fingerprint(p, remote), 0.0, 0.0, 2, Queued, Some(0), 0, 0.0, NotTried);
    SeenBoth(p, remote, x, local).(observed := map[p := e], downloadsQueued := 1)
  }

  /** The second scan has started the download of `p`. */
  ghost predicate Waiting(s: System, p: Path, remote: Stat, x: Path, local: Stat) {
    && s.core == Started(p, remote, x, local) && s.phase == Android(map[p := remote], {}) && s.now == 1.0
    && s.world == World(map[0 := Transfer(Running, Path(""))], map[p := remote], map[x := local])
    && s.history.localMarks == {Fingerprint(x, local)} && s.history.delivered == map[] && s.history.sent == {}
    && s.history.queued == {0} && s.history.manual == {} && s.history.closed == {}
    && s.history.sources == map[0 := Fingerprint(p, remote)]
  }

  /** The second sighting starts the download. */
  lemma QueuesTheDownload(s: System, p: Path, remote: Stat, x: Path, local: Stat)
    requires s.core == SeenBoth(p, remote, x, local) && s.phase == Android(map[p := remote], {p}) && s.now == 1.0
    requires Untouched(s, p, remote, x, local)
    ensures Runs(s, [SeeAndroid(p, Some(0))])
    ensures Waiting(Execute(s, [SeeAndroid(p, Some(0))]), p, remote, x, local)
  {
    One(s, SeeAndroid(p, Some(0)));
    assert Queues(s.core.observed, s.core.processed, s.core.config, Fingerprint(p, remote), s.now);
    assert SeeAndroidStep(s, p, Some(0)).core == Started(p, remote, x, local);
  }

  function SecondAndroid(p: Path): seq<Event> { OpenEvents(1.0, true) + ([ListAndroid] + [SeeAndroid(p, Some(0))]) }

  lemma StartsTheDownload(s: System, p: Path, remote: Stat, x: Path, local: Stat)
    requires s.core == SeenBoth(p, remote, x, local) && s.phase == Idle && s.now == 0.0
    requires Untouched(s, p, remote, x, local) && BothVisible(p, x)
    ensures Runs(s, SecondAndroid(p)) && Waiting(Execute(s, SecondAndroid(p)), p, remote, x, local)
  {
    Opens(s, 1.0);
    var s1 := s.(phase := ListingAndroid, now := 1.0);
    ListsAndroid(s1, p, remote);
    var s2 := Execute(s1, [ListAndroid]);
    QueuesTheDownload(s2, p, remote, x, local);
    Append(s1, [ListAndroid], [SeeAndroid(p, Some(0))]);
    Append(s, OpenEvents(1.0, true), [ListAndroid] + [SeeAndroid(p, Some(0))]);
  }

  function Prelude(p: Path, remote: Stat, x: Path, local: Stat): seq<Event> {
    FirstAndroid(p) + (FirstPc(p, remote, x, local) + SecondAndroid(p))
  }

  lemma ADownloadIsStarted(p: Path, remote: Stat, x: Path, local: Stat)
    requires BothVisible(p, x)
    ensures Runs(Pair(p, remote, x, local), Prelude(p, remote, x, local))
    ensures Waiting(Execute(Pair(p, remote, x, local), Prelude(p, remote, x, local)), p, remote, x, local)
  {
    var s := Pair(p, remote, x, local);
    LooksAtThePhone(p, remote, x, local);
    var s1 := Execute(s, FirstAndroid(p));
    LooksAtThePc(s1, p, remote, x, local);
    var s2 := Execute(s1, FirstPc(p, remote, x, local));
    StartsTheDownload(s2, p, remote, x, local);
    Append(s1, FirstPc(p, remote, x, local), SecondAndroid(p));
    Append(s, FirstAndroid(p), FirstPc(p, remote, x, local) + SecondAndroid(p));
  }

  /** The user deletes the file, and the download takes its name. */
  function LandEvents(x: Path, brought: Stat): seq<Event> { [EditLocal(x, None)] + [DownloadDone(0, x, brought)] }

  /** Both happen after the file was listed. */
  function LateEvents(x: Path, brought: Stat): seq<Event> {
    ([EndAndroid] + [ListPc]) + (LandEvents(x, brought) + CopyEvents(x, 1))
  }

  lemma TheListedNameIsTaken(s: System, p: Path, remote: Stat, x: Path, local: Stat, brought: Stat)
    requires Waiting(s, p, remote, x, local) && s.phase.Android? && s.phase.left == {} && BothVisible(p, x)
             && brought != local
    ensures Runs(s, LateEvents(x, brought))
    ensures var h := Execute(s, LateEvents(x, brought)).history;
            h.sent == {Fingerprint(x, brought)} && h.delivered == map[Fingerprint(x, brought) := 0]
  {
    EndsAndroid(s);
    var s1 := s.(phase := ListingPc);
    ListsOne(s1, x, local);
    var s2 := s1.(phase := Pc(map[x := local], {x}));
    assert s2 == Execute(s1, [ListPc]);
    Append(s, [EndAndroid], [ListPc]);
    NameIsTaken(s2, p, remote, x, local, brought);
    Append(s, [EndAndroid] + [ListPc], LandEvents(x, brought) + CopyEvents(x, 1));
  }

  lemma UserDeletes(s: System, x: Path)
    ensures Runs(s, [EditLocal(x, None)])
    ensures Execute(s, [EditLocal(x, None)]) == s.(world := s.world.(local := s.world.local - {x}))
  {
    One(s, EditLocal(x, None));
    assert s.history.localMarks + {} == s.history.localMarks;
  }

  lemma Brings(s: System, x: Path, brought: Stat)
    requires 0 in s.world.records && s.world.records[0].outcome.Running? && 0 in s.history.queued
    requires Fingerprint(x, brought) !in s.history.localMarks && s.history.delivered == map[]
    ensures Runs(s, [DownloadDone(0, x, brought)])
    ensures var s' := Execute(s, [DownloadDone(0, x, brought)]);
            && s'.phase == s.phase && s'.core == s.core && s'.now == s.now
            && s'.world == s.world.(records := s.world.records[0 := Transfer(Succeeded, x)],
                                    local := s.world.local[x := brought])
            && s'.history == s.history.(delivered := map[Fingerprint(x, brought) := 0],
                                        localMarks := s.history.localMarks + {Fingerprint(x, brought)},
                                        stray := s'.history.stray)
  {
    One(s, DownloadDone(0, x, brought));
  }

  lemma DeletedAndBrought(s: System, x: Path, brought: Stat)
    requires 0 in s.world.records && s.world.records[0].outcome.Running? && 0 in s.history.queued
    requires Fingerprint(x, brought) !in s.history.localMarks && s.history.delivered == map[]
    ensures Runs(s, LandEvents(x, brought))
    ensures var s' := Execute(s, LandEvents(x, brought));
            && s'.phase == s.phase && s'.core == s.core && s'.now == s.now
            && s'.world == s.world.(records := s.world.records[0 := Transfer(Succeeded, x)],
                                    local := (s.world.local - {x})[x := brought])
            && s'.history == s.history.(delivered := map[Fingerprint(x, brought) := 0],
                                        localMarks := s.history.localMarks + {Fingerprint(x, brought)},
                                        stray := s'.history.stray)
  {
    UserDeletes(s, x);
    Brings(s.(world := s.world.(local := s.world.local - {x})), x, brought);
    Append(s, [EditLocal(x, None)], [DownloadDone(0, x, brought)]);
  }

  lemma NameIsTaken(s: System, p: Path, remote: Stat, x: Path, local: Stat, brought: Stat)
    requires Waiting(s.(phase := Android(map[p := remote], {})), p, remote, x, local)
             && s.phase == Pc(map[x := local], {x})
    requires brought != local
    ensures Runs(s, LandEvents(x, brought) + CopyEvents(x, 1))
    ensures var h := Execute(s, LandEvents(x, brought) + CopyEvents(x, 1)).history;
            h.sent == {Fingerprint(x, brought)} && h.delivered == map[Fingerprint(x, brought) := 0]
  {
    DeletedAndBrought(s, x, brought);
    var s2 := Execute(s, LandEvents(x, brought));
    CopiesWhatIsThere(s2, x, 1);
    Append(s, LandEvents(x, brought), CopyEvents(x, 1));
  }

  /** A download the monitor waits for takes the name of a file that was listed before: it is copied in the
      place of that file, and sent back to the phone it came from. */
  lemma LateDownloadBouncesBack(p: Path, remote: Stat, x: Path, local: Stat, brought: Stat)
    requires BothVisible(p, x) && brought != local
    ensures var s, events := Pair(p, remote, x, local), Prelude(p, remote, x, local) + LateEvents(x, brought);
            && Runs(s, events)
            && Execute(s, events).history.sent == {Fingerprint(x, brought)}
            && Execute(s, events).history.delivered == map[Fingerprint(x, brought) := 0]
  {
    var s := Pair(p, remote, x, local);
    ADownloadIsStarted(p, remote, x, local);
    TheListedNameIsTaken(Execute(s, Prelude(p, remote, x, local)), p, remote, x, local, brought);
    Append(s, Prelude(p, remote, x, local), LateEvents(x, brought));
  }

  // ---------------------------------------------------------------- a download seen before it is marked

  /** The download is delivered in the place of the file that was there. */
  ghost predicate Landed(s: System, p: Path, remote: Stat, x: Path, local: Stat, brought: Stat) {
    && s.now == 1.0 && s.world == World(map[0 := Transfer(Succeeded, x)], map[p := remote], map[x := brought])
    && s.history.localMarks == {Fingerprint(x, local), Fingerprint(x, brought)}
    && s.history.delivered == map[Fingerprint(x, brought) := 0] && s.history.sent == {}
  }

  lemma Lands(s: System, p: Path, remote: Stat, x: Path, local: Stat, brought: Stat)
    requires Waiting(s, p, remote, x, local) && brought != local
    ensures Runs(s, LandEvents(x, brought)) && Landed(Execute(s, LandEvents(x, brought)), p, remote, x, local, brought)
    ensures Execute(s, LandEvents(x, brought)).core == s.core && Execute(s, LandEvents(x, brought)).phase == s.phase
  {
    DeletedAndBrought(s, x, brought);
    assert (map[x := local] - {x})[x := brought] == map[x := brought];
  }

  /** A scan sees a version of a file that its table does not show: it starts over. */
  lemma SeesANewVersion(s: System, x: Path, stat: Stat)
    requires s.phase == Pc(map[x := stat], {x}) && s.core.config.Valid()
    requires !Noticed(s.core, Fingerprint(x, stat)) && Fingerprint(x, stat) !in s.core.processedLocal
    ensures Runs(s, [SeePc(x)])
    ensures Execute(s, [SeePc(x)])
         == s.(core := s.core.(localObserved := s.core.localObserved[x := NewEntry(Fingerprint(x, stat), s.now)]),
               phase := Pc(map[x := stat], {}), history := s.history.(pcLog := Note(s.history.pcLog, x, stat, s.now)))
  {
    One(s, SeePc(x));
  }

  function PcLook(x: Path): seq<Event> { [ListPc] + [SeePc(x)] }

  /** The core after the PC side has seen the delivered file once. */
  function Unmarked(p: Path, remote: Stat, x: Path, local: Stat, brought: Stat): Core {
    Started(p, remote, x, local).(localObserved := map[x := NewEntry(Fingerprint(x, brought), 1.0)])
  }

  lemma SeesTheDelivery(s: System, p: Path, remote: Stat, x: Path, local: Stat, brought: Stat)
    requires s.core == Started(p, remote, x, local) && s.phase == ListingPc && !Ignored(BaseName(x.text))
             && brought != local
    requires s.now == 1.0 && s.world.local == map[x := brought]
    ensures Runs(s, PcLook(x))
    ensures Execute(s, PcLook(x))
         == s.(core := Unmarked(p, remote, x, local, brought), phase := Pc(map[x := brought], {}),
               history := s.history.(pcLog := Note(s.history.pcLog, x, brought, 1.0)))
  {
    ListsOne(s, x, brought);
    var s1 := s.(phase := Pc(map[x := brought], {x}));
    assert Execute(s, [ListPc]) == s1;
    SeesANewVersion(s1, x, brought);
    Append(s, [ListPc], [SeePc(x)]);
  }

  function MidScanEvents(x: Path, brought: Stat): seq<Event> { LandEvents(x, brought) + ([EndAndroid] + PcLook(x)) }

  lemma SeenInTheSameScan(s: System, p: Path, remote: Stat, x: Path, local: Stat, brought: Stat)
    requires Waiting(s, p, remote, x, local) && !Ignored(BaseName(x.text)) && brought != local
    ensures Runs(s, MidScanEvents(x, brought))
            && Landed(Execute(s, MidScanEvents(x, brought)), p, remote, x, local, brought)
    ensures Execute(s, MidScanEvents(x, brought)).core == Unmarked(p, remote, x, local, brought)
    ensures Execute(s, MidScanEvents(x, brought)).phase == Pc(map[x := brought], {})
  {
    Lands(s, p, remote, x, local, brought);
    var s1 := Execute(s, LandEvents(x, brought));
    EndsAndroid(s1);
    SeesTheDelivery(s1.(phase := ListingPc), p, remote, x, local, brought);
    Append(s1, [EndAndroid], PcLook(x));
    Append(s, LandEvents(x, brought), [EndAndroid] + PcLook(x));
  }

  /** A download finishes after its scan reconciled: the PC side of the same scan sees the file, which does
      not count as handled yet. Nothing is queued, because this is the first sighting. */
  lemma SeenBeforeItIsMarked(p: Path, remote: Stat, x: Path, local: Stat, brought: Stat)
    requires BothVisible(p, x) && brought != local
    ensures var s, events := Pair(p, remote, x, local), Prelude(p, remote, x, local) + MidScanEvents(x, brought);
            && Runs(s, events) && Landed(Execute(s, events), p, remote, x, local, brought)
            && Execute(s, events).core == Unmarked(p, remote, x, local, brought)
            && Execute(s, events).phase == Pc(map[x := brought], {})
    ensures Noticed(Unmarked(p, remote, x, local, brought), Fingerprint(x, brought))
    ensures Fingerprint(x, brought) !in Unmarked(p, remote, x, local, brought).processedLocal
  {
    var s := Pair(p, remote, x, local);
    ADownloadIsStarted(p, remote, x, local);
    SeenInTheSameScan(Execute(s, Prelude(p, remote, x, local)), p, remote, x, local, brought);
    Append(s, Prelude(p, remote, x, local), MidScanEvents(x, brought));
  }

  // ---------------------------------------------------------------- an edit that is lost

  function EditEvents(p: Path, remote: Stat, x: Path, local: Stat, brought: Stat, edited: Stat): seq<Event> {
    ([EndPc] + [Finish(Unmarked(p, remote, x, local, brought))])
    + ([EditLocal(x, Some(edited))] + ([BeginScan(2.0)] + [Reconcile(p)]))
  }

  lemma TakesTheEditForTheDownload(s: System, p: Path, remote: Stat, x: Path, local: Stat, brought: Stat, edited: Stat)
    requires s.phase == Idle && s.now == 1.0 && s.core == Unmarked(p, remote, x, local, brought)
    requires s.world == World(map[0 := Transfer(Succeeded, x)], map[p := remote], map[x := edited])
    requires edited != brought
    ensures Runs(s, [BeginScan(2.0)] + [Reconcile(p)])
    ensures var s' := Execute(s, [BeginScan(2.0)] + [Reconcile(p)]);
            && s'.core.processedLocal == map[Fingerprint(x, edited) := 2.0]
            && s'.history.delivered == s.history.delivered && s'.history.sent == s.history.sent
  {
    Two(s, BeginScan(2.0), Reconcile(p));
  }

  lemma EditIsTakenForTheDownload(s: System, p: Path, remote: Stat, x: Path, local: Stat, brought: Stat, edited: Stat)
    requires s.phase == Pc(map[x := brought], {}) && s.core == Unmarked(p, remote, x, local, brought)
    requires Landed(s, p, remote, x, local, brought) && edited != local && edited != brought
    ensures Runs(s, EditEvents(p, remote, x, local, brought, edited))
    ensures var s' := Execute(s, EditEvents(p, remote, x, local, brought, edited));
            && s'.core.processedLocal == map[Fingerprint(x, edited) := 2.0]
            && s'.history.delivered == map[Fingerprint(x, brought) := 0] && s'.history.sent == {}
  {
    Closes(s);
    var s1 := s.(phase := Idle);
    One(s1, EditLocal(x, Some(edited)));
    var s2 := Apply(s1, EditLocal(x, Some(edited)));
    assert s2.world.local == map[x := edited];
    TakesTheEditForTheDownload(s2, p, remote, x, local, brought, edited);
    Append(s1, [EditLocal(x, Some(edited))], [BeginScan(2.0)] + [Reconcile(p)]);
    Append(s, [EndPc] + [Finish(s.core)], [EditLocal(x, Some(edited))] + ([BeginScan(2.0)] + [Reconcile(p)]));
  }

  /** The user edits the downloaded file before the next scan reconciles the download. That scan takes the
      edit for the download: the edit counts as handled, though it was never sent, and the download does not. */
  lemma AnEditIsLost(p: Path, remote: Stat, x: Path, local: Stat, brought: Stat, edited: Stat)
    requires BothVisible(p, x) && brought != local && edited != local && edited != brought
    ensures var s := Pair(p, remote, x, local);
            var events := Prelude(p, remote, x, local) + MidScanEvents(x, brought)
                          + EditEvents(p, remote, x, local, brought, edited);
            && Runs(s, events)
            && Execute(s, events).core.processedLocal == map[Fingerprint(x, edited) := 2.0]
            && Execute(s, events).history.delivered == map[Fingerprint(x, brought) := 0]
            && Execute(s, events).history.sent == {}
  {
    var s := Pair(p, remote, x, local);
    SeenBeforeItIsMarked(p, remote, x, local, brought);
    var s' := Execute(s, Prelude(p, remote, x, local) + MidScanEvents(x, brought));
    EditIsTakenForTheDownload(s', p, remote, x, local, brought, edited);
    Append(s, Prelude(p, remote, x, local) + MidScanEvents(x, brought),
           EditEvents(p, remote, x, local, brought, edited));
  }

  // ---------------------------------------------------------------- a download cancelled after it was delivered

  /** The delivery as before, but its record is no longer COMPLETED. */
  ghost predicate Undone(s: System, p: Path, remote: Stat, x: Path, brought: Stat) {
    && s.world == World(map[0 := Transfer(Ended, Path(""))], map[p := remote], map[x := brought])
    && s.history.delivered == map[Fingerprint(x, brought) := 0] && s.history.sent == {}
    && s.history.queued == {0} && s.history.manual == {} && s.history.sources == map[0 := Fingerprint(p, remote)]
  }

  lemma IsUndone(s: System, p: Path, remote: Stat, x: Path, local: Stat, brought: Stat)
    requires Landed(s, p, remote, x, local, brought) && s.history.queued == {0} && s.history.manual == {}
    requires s.history.sources == map[0 := Fingerprint(p, remote)]
    ensures Runs(s, [CancelledLate(0)]) && Undone(Execute(s, [CancelledLate(0)]), p, remote, x, brought)
    ensures var s' := Execute(s, [CancelledLate(0)]); s'.core == s.core && s'.phase == s.phase && s'.now == s.now
  {
    One(s, CancelledLate(0));
  }

  function UndoneEvents(p: Path, remote: Stat, x: Path, local: Stat, brought: Stat): seq<Event> {
    (LandEvents(x, brought) + [CancelledLate(0)])
    + (([EndAndroid] + PcLook(x)) + ([EndPc] + [Finish(Unmarked(p, remote, x, local, brought))]))
  }

  lemma LandsAndIsUndone(s: System, p: Path, remote: Stat, x: Path, local: Stat, brought: Stat)
    requires Waiting(s, p, remote, x, local) && brought != local
    ensures Runs(s, LandEvents(x, brought) + [CancelledLate(0)])
    ensures var s' := Execute(s, LandEvents(x, brought) + [CancelledLate(0)]);
            && Undone(s', p, remote, x, brought) && s'.core == s.core && s'.phase == s.phase && s'.now == 1.0
  {
    Lands(s, p, remote, x, local, brought);
    DeletedAndBrought(s, x, brought);
    IsUndone(Execute(s, LandEvents(x, brought)), p, remote, x, local, brought);
    Append(s, LandEvents(x, brought), [CancelledLate(0)]);
  }

  lemma SeenAndUndone(s: System, p: Path, remote: Stat, x: Path, local: Stat, brought: Stat)
    requires Waiting(s, p, remote, x, local) && !Ignored(BaseName(x.text)) && brought != local
    ensures Runs(s, UndoneEvents(p, remote, x, local, brought))
    ensures var s' := Execute(s, UndoneEvents(p, remote, x, local, brought));
            && Undone(s', p, remote, x, brought) && s'.core == Unmarked(p, remote, x, local, brought)
            && s'.phase == Idle && s'.now == 1.0
  {
    LandsAndIsUndone(s, p, remote, x, local, brought);
    var s1 := Execute(s, LandEvents(x, brought) + [CancelledLate(0)]);
    EndsAndroid(s1);
    var s2 := s1.(phase := ListingPc);
    SeesTheDelivery(s2, p, remote, x, local, brought);
    var s3 := Execute(s2, PcLook(x));
    Closes(s3);
    Append(s1, [EndAndroid], PcLook(x));
    Append(s1, [EndAndroid] + PcLook(x), [EndPc] + [Finish(s3.core)]);
    Append(s, LandEvents(x, brought) + [CancelledLate(0)],
           ([EndAndroid] + PcLook(x)) + ([EndPc] + [Finish(s3.core)]));
  }

  /** The core after the download's entry was reconciled with a record that is not COMPLETED. */
  function GivenUp(p: Path, remote: Stat, x: Path, local: Stat, brought: Stat, sightings: nat, status: Status): Core {
    Unmarked(p, remote, x, local, brought)
    .(observed := map[p := Entry(Fingerprint(p, remote), 0.0, 0.0, sightings, status, None, 1, 32.0, NotTried)])
  }

  function GiveUpEvents(p: Path): seq<Event> {
    ([BeginScan(2.0)] + [Reconcile(p)]) + ([EndDownloads] + [EndUploads(true)])
  }

  lemma ReconcilesTheEnd(s: System, p: Path, remote: Stat, x: Path, local: Stat, brought: Stat)
    requires s.core == Unmarked(p, remote, x, local, brought) && s.phase == Idle && s.now == 1.0
    requires Undone(s, p, remote, x, brought)
    ensures Runs(s, [BeginScan(2.0)] + [Reconcile(p)])
    ensures var s' := Execute(s, [BeginScan(2.0)] + [Reconcile(p)]);
            && Undone(s', p, remote, x, brought) && s'.core == GivenUp(p, remote, x, local, brought, 2, Status.Failed)
            && s'.phase == Downloads({}) && s'.now == 2.0
  {
    assert Power(1) == 2;
    Two(s, BeginScan(2.0), Reconcile(p));
  }

  lemma GivesUp(s: System, p: Path, remote: Stat, x: Path, local: Stat, brought: Stat)
    requires s.core == Unmarked(p, remote, x, local, brought) && s.phase == Idle && s.now == 1.0
    requires Undone(s, p, remote, x, brought)
    ensures Runs(s, GiveUpEvents(p))
    ensures var s' := Execute(s, GiveUpEvents(p));
            && Undone(s', p, remote, x, brought) && s'.core == GivenUp(p, remote, x, local, brought, 2, Status.Failed)
            && s'.phase == ListingAndroid && s'.now == 2.0
  {
    ReconcilesTheEnd(s, p, remote, x, local, brought);
    var s1 := Execute(s, [BeginScan(2.0)] + [Reconcile(p)]);
    assert Awaiting(s1.core.localObserved) == {};
    Two(s1, EndDownloads, EndUploads(true));
    Append(s, [BeginScan(2.0)] + [Reconcile(p)], [EndDownloads] + [EndUploads(true)]);
  }

  lemma SeesAWaitingFile(c: Core, p: Path, remote: Stat, now: real)
    requires p in c.observed && c.observed[p].mark == Fingerprint(p, remote) && c.observed[p].transfer.None?
    requires Fingerprint(p, remote) !in c.processed && now < c.observed[p].nextRetry
    ensures !Queues(c.observed, c.processed, c.config, Fingerprint(p, remote), now)
    ensures var e := c.observed[p];
            ObserveAndroid(c, Fingerprint(p, remote), now).observed
            == c.observed[p := e.(sightings := e.sightings + 1, status := Status.Pending)]
  {
  }

  /** The phone's file waits before the next attempt. */
  lemma WaitsBeforeTheNextAttempt(s: System, p: Path, remote: Stat, x: Path, local: Stat, brought: Stat)
    requires s.core == GivenUp(p, remote, x, local, brought, 2, Status.Failed) && s.now == 2.0
    requires s.phase == Android(map[p := remote], {p}) && Undone(s, p, remote, x, brought)
    ensures Runs(s, [SeeAndroid(p, None)])
    ensures var s' := Execute(s, [SeeAndroid(p, None)]);
            && Undone(s', p, remote, x, brought) && s'.core == GivenUp(p, remote, x, local, brought, 3, Status.Pending)
            && s'.phase == Android(map[p := remote], {}) && s'.now == 2.0
  {
    SeesAWaitingFile(s.core, p, remote, s.now);
    One(s, SeeAndroid(p, None));
  }

  function SendBackEvents(p: Path, x: Path): seq<Event> {
    ([ListAndroid] + ([SeeAndroid(p, None)] + [EndAndroid])) + ([ListPc] + CopyEvents(x, 1))
  }

  lemma SendsItBack(s: System, p: Path, remote: Stat, x: Path, local: Stat, brought: Stat)
    requires s.core == GivenUp(p, remote, x, local, brought, 2, Status.Failed) && s.phase == ListingAndroid
             && s.now == 2.0
    requires Undone(s, p, remote, x, brought) && BothVisible(p, x)
    ensures Runs(s, SendBackEvents(p, x))
    ensures Execute(s, SendBackEvents(p, x)).history.sent == {Fingerprint(x, brought)}
    ensures Execute(s, SendBackEvents(p, x)).history.delivered == map[Fingerprint(x, brought) := 0]
  {
    ListsAndroid(s, p, remote);
    var s1 := Execute(s, [ListAndroid]);
    WaitsBeforeTheNextAttempt(s1, p, remote, x, local, brought);
    var s2 := Execute(s1, [SeeAndroid(p, None)]);
    EndsAndroid(s2);
    Append(s1, [SeeAndroid(p, None)], [EndAndroid]);
    Append(s, [ListAndroid], [SeeAndroid(p, None)] + [EndAndroid]);
    CopiesTheDelivery(s2.(phase := ListingPc), p, remote, x, local, brought);
    Append(s, [ListAndroid] + ([SeeAndroid(p, None)] + [EndAndroid]), [ListPc] + CopyEvents(x, 1));
  }

  lemma CopiesTheDelivery(s: System, p: Path, remote: Stat, x: Path, local: Stat, brought: Stat)
    requires s.core == GivenUp(p, remote, x, local, brought, 3, Status.Pending) && s.phase == ListingPc && s.now == 2.0
    requires Undone(s, p, remote, x, brought) && BothVisible(p, x)
    ensures Runs(s, [ListPc] + CopyEvents(x, 1))
    ensures Execute(s, [ListPc] + CopyEvents(x, 1)).history.sent == {Fingerprint(x, brought)}
    ensures Execute(s, [ListPc] + CopyEvents(x, 1)).history.delivered == map[Fingerprint(x, brought) := 0]
  {
    ListsOne(s, x, brought);
    var s1 := s.(phase := Pc(map[x := brought], {x}));
    assert Execute(s, [ListPc]) == s1;
    CopiesWhatIsThere(s1, x, 1);
    Append(s, [ListPc], CopyEvents(x, 1));
  }

  function CancelledRun(p: Path, remote: Stat, x: Path, local: Stat, brought: Stat): seq<Event> {
    Prelude(p, remote, x, local)
    + (UndoneEvents(p, remote, x, local, brought) + (GiveUpEvents(p) + SendBackEvents(p, x)))
  }

  /** A download the monitor waits for is delivered on time, and a late `cancel` takes its record out of COMPLETED. The
      monitor takes the download for failed and never marks the file: the next scan sends it back. */
  lemma CancelledDownloadBouncesBack(p: Path, remote: Stat, x: Path, local: Stat, brought: Stat)
    requires BothVisible(p, x) && brought != local
    ensures var s, events := Pair(p, remote, x, local), CancelledRun(p, remote, x, local, brought);
            && Runs(s, events)
            && Execute(s, events).history.sent == {Fingerprint(x, brought)}
            && Execute(s, events).history.delivered == map[Fingerprint(x, brought) := 0]
  {
    var s := Pair(p, remote, x, local);
    ADownloadIsStarted(p, remote, x, local);
    var s1 := Execute(s, Prelude(p, remote, x, local));
    SeenAndUndone(s1, p, remote, x, local, brought);
    var s2 := Execute(s1, UndoneEvents(p, remote, x, local, brought));
    GivesUp(s2, p, remote, x, local, brought);
    SendsItBack(Execute(s2, GiveUpEvents(p)), p, remote, x, local, brought);
    Append(s2, GiveUpEvents(p), SendBackEvents(p, x));
    Append(s1, UndoneEvents(p, remote, x, local, brought), GiveUpEvents(p) + SendBackEvents(p, x));
    Append(s, Prelude(p, remote, x, local),
           UndoneEvents(p, remote, x, local, brought) + (GiveUpEvents(p) + SendBackEvents(p, x)));
  }
}
