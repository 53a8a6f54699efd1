/** Runs of a fresh transfer service: a task cancelled before it ran, a retry into a full queue, a completed
    download cancelled late, and a completed upload lost by closing. */
module TransferRuns {
  import opened Wrappers
  import opened LocalFiles
  import opened TransferModel
  import opened TransferSafety
  import opened TransferLimits

  // ---------------------------------------------------------------- a task that never ran

  /** One place in the queue, one slot, and the requests of the run below. */
  function Small(records: map<Id, Record>, tasks: map<Id, TaskId>, loop: map<TaskId, Task>,
                 waits: map<CallId, Wait>): State {
    State(1, 1, records, tasks, loop, 1, waits, map[])
  }

  function CancelBeforeItRuns(): seq<Event> {
    [Enqueue(0, 0, Request())] + [CancelCall(0, 0)] + [Resume(0, CancelThrown)]
  }

  /** The record is queued, its only task has ended, and the caller of `cancel` has yet to resume. */
  function Undriven(): State {
    Small(map[0 := Request()], map[0 := 0], map[0 := Task(0, Finished, true)], map[0 := Wait(0, 0)])
  }

  /** A request whose task is cancelled before its first step is left queued with nothing to run it. */
  lemma ANeverRunTaskLeavesItsRecordQueued()
    ensures Leads(Initial(1, 1, map[]), CancelBeforeItRuns(), Undriven())
    ensures Undriven().records[0].state == Queued && !HasTask(Undriven(), 0) && AwaitsCancel(Undriven(), 0)
  {
    var s0 := Initial(1, 1, map[]);
    assert OpenIds(s0.records) == {};
    var s1 := Small(map[0 := Request()], map[0 := 0], map[0 := Task(0, Created, false)], map[]);
    var s2 := Small(map[0 := Request()], map[0 := 0], map[0 := Task(0, Created, true)], map[0 := Wait(0, 0)]);
    assert Apply(s0, Enqueue(0, 0, Request())) == s1;
    assert Apply(s1, CancelCall(0, 0)) == s2;
    assert Apply(s2, Resume(0, CancelThrown)) == Undriven();
    One(s0, Enqueue(0, 0, Request()));
    One(s1, CancelCall(0, 0));
    One(s2, Resume(0, CancelThrown));
    Append(s0, [Enqueue(0, 0, Request())], s1, [CancelCall(0, 0)], s2);
    Append(s0, [Enqueue(0, 0, Request())] + [CancelCall(0, 0)], s2, [Resume(0, CancelThrown)], Undriven());
    assert Undriven().waits[0] == Wait(0, 0);
  }

  // ---------------------------------------------------------------- a retry into a full queue

  function RefillEvents(): seq<Event> { [CancelResume(0)] + [Enqueue(1, 1, Request())] + [Retry(0, 2)] }

  function Overfull(): State {
    Small(map[0 := Request().(retries := 1), 1 := Request()], map[0 := 2, 1 := 1],
          map[0 := Task(0, Finished, true), 1 := Task(1, Created, false), 2 := Task(0, Created, false)], map[])
  }

  function Emptied(): State {
    Small(map[0 := Request().(state := Cancelled)], map[0 := 0], map[0 := Task(0, Finished, true)], map[])
  }

  function Full(): State {
    Small(map[0 := Request().(state := Cancelled), 1 := Request()], map[0 := 0, 1 := 1],
          map[0 := Task(0, Finished, true), 1 := Task(1, Created, false)], map[])
  }

  lemma Refill()
    ensures Leads(Undriven(), [CancelResume(0)] + [Enqueue(1, 1, Request())], Full())
  {
    assert Apply(Undriven(), CancelResume(0)) == Emptied();
    assert OpenIds(Emptied().records) == {};
    assert Apply(Emptied(), Enqueue(1, 1, Request())) == Full();
    One(Undriven(), CancelResume(0));
    One(Emptied(), Enqueue(1, 1, Request()));
    Append(Undriven(), [CancelResume(0)], Emptied(), [Enqueue(1, 1, Request())], Full());
  }

  lemma Overfill()
    ensures Leads(Full(), [Retry(0, 2)], Overfull())
  {
    assert Apply(Full(), Retry(0, 2)) == Overfull();
    One(Full(), Retry(0, 2));
  }

  lemma Refills()
    ensures Leads(Undriven(), RefillEvents(), Overfull())
  {
    Refill();
    Overfill();
    Append(Undriven(), [CancelResume(0)] + [Enqueue(1, 1, Request())], Full(), [Retry(0, 2)], Overfull());
  }

  lemma BothAreOpen()
    ensures OpenIds(Overfull().records) == {0, 1} && |OpenIds(Overfull().records)| > Overfull().maximum
  {
    assert OpenIds(Overfull().records) == {0, 1};
  }

  /** In a queue with one place, a request is cancelled, another takes the place, and the first is retried:
      two requests are open. */
  lemma ARetryOverfillsTheQueue()
    ensures Leads(Initial(1, 1, map[]), CancelBeforeItRuns() + RefillEvents(), Overfull())
    ensures OpenIds(Overfull().records) == {0, 1} && |OpenIds(Overfull().records)| > Overfull().maximum
  {
    ANeverRunTaskLeavesItsRecordQueued();
    Refills();
    Append(Initial(1, 1, map[]), CancelBeforeItRuns(), Undriven(), RefillEvents(), Overfull());
    BothAreOpen();
  }

  // ---------------------------------------------------------------- a cancel that comes too late

  /** One download in the only place and the only slot. */
  function Downloading(r: Record, point: Point, cancelling: bool, waits: map<CallId, Wait>, disk: Disk): State {
    State(1, 1, map[0 := r], map[0 := 0], map[0 := Task(0, point, cancelling)],
          if Task(0, point, cancelling).HoldsPermit() then 0 else 1, waits, disk)
  }

  const PART := PartOf(SHARED, 0)

  function Received(): State { Downloading(Fetched(), Receiving(1, 1, 1), false, map[], map[PART := [7]]) }

  function FetchEvents(): seq<Event> {
    ([Enqueue(0, 0, Request())] + [Resume(0, Run)]) + (ResolveEvents(0) + ReceiveEvents(0, [7]))
  }

  function AdmittedAlone(): State { Downloading(Request().(state := Preparing), CheckingDevice, false, map[], map[]) }

  lemma IsAdmitted()
    ensures Leads(Initial(1, 1, map[]), [Enqueue(0, 0, Request())] + [Resume(0, Run)], AdmittedAlone())
  {
    var s0 := Initial(1, 1, map[]);
    assert OpenIds(s0.records) == {};
    var s1 := Downloading(Request(), Created, false, map[], map[]);
    assert Apply(s0, Enqueue(0, 0, Request())) == s1;
    assert Apply(s1, Resume(0, Run)) == AdmittedAlone();
    One(s0, Enqueue(0, 0, Request()));
    One(s1, Resume(0, Run));
    Append(s0, [Enqueue(0, 0, Request())], s1, [Resume(0, Run)], AdmittedAlone());
  }

  function ResolvedAlone(): State {
    Downloading(Request().(state := Transferring, size := Some(1)), StatingAgain(1), false, map[], map[])
  }

  lemma IsResolved()
    ensures Leads(AdmittedAlone(), ResolveEvents(0), ResolvedAlone())
  {
    Resolves(AdmittedAlone(), 0);
  }

  lemma IsReceived()
    ensures Leads(ResolvedAlone(), ReceiveEvents(0, [7]), Received())
  {
    Receives(ResolvedAlone(), 0, [7]);
  }

  lemma IsFetched()
    ensures Leads(Initial(1, 1, map[]), FetchEvents(), Received())
  {
    IsAdmitted();
    IsResolved();
    IsReceived();
    Append(AdmittedAlone(), ResolveEvents(0), ResolvedAlone(), ReceiveEvents(0, [7]), Received());
    Append(Initial(1, 1, map[]), [Enqueue(0, 0, Request())] + [Resume(0, Run)], AdmittedAlone(),
           ResolveEvents(0) + ReceiveEvents(0, [7]), Received());
  }

  const WAITING := map[0 as CallId := Wait(0, 0)]

  function DeliveredAlone(): State {
    Downloading(Fetched().(state := Completed, verified := true), Finished, false, WAITING, map[SHARED := [7]])
  }

  function SwallowEvents(): seq<Event> { [CancelCall(0, 0)] + [CancelSwallowed(0)] + [Resume(0, Returned)] }

  function GoingOn(): State { Downloading(Fetched(), Receiving(1, 1, 1), false, WAITING, map[PART := [7]]) }

  lemma RequestIsSwallowed()
    ensures Leads(Received(), [CancelCall(0, 0)] + [CancelSwallowed(0)], GoingOn())
  {
    var asked := Downloading(Fetched(), Receiving(1, 1, 1), true, WAITING, map[PART := [7]]);
    assert Apply(Received(), CancelCall(0, 0)) == asked;
    assert Apply(asked, CancelSwallowed(0)) == GoingOn();
    One(Received(), CancelCall(0, 0));
    One(asked, CancelSwallowed(0));
    Append(Received(), [CancelCall(0, 0)], asked, [CancelSwallowed(0)], GoingOn());
  }

  lemma IsDelivered()
    ensures Leads(GoingOn(), [Resume(0, Returned)], DeliveredAlone())
  {
    Delivers(GoingOn(), 0, [7]);
    assert map[PART := [7], SHARED := [7]] - {PART} == map[SHARED := [7]];
  }

  lemma GoesOn()
    ensures Leads(Received(), SwallowEvents(), DeliveredAlone())
  {
    RequestIsSwallowed();
    IsDelivered();
    Append(Received(), [CancelCall(0, 0)] + [CancelSwallowed(0)], GoingOn(), [Resume(0, Returned)], DeliveredAlone());
  }

  function CancelledAfterAll(): State {
    Downloading(Fetched().(state := Cancelled, verified := true), Finished, false, map[], map[SHARED := [7]])
  }

  lemma IsCancelledAfterAll()
    ensures Leads(DeliveredAlone(), [CancelResume(0)], CancelledAfterAll())
  {
    assert Apply(DeliveredAlone(), CancelResume(0)) == CancelledAfterAll() by {
      assert WAITING - {0} == map[];
      assert map[SHARED := [7]] - {PART} == map[SHARED := [7]];
    }
    One(DeliveredAlone(), CancelResume(0));
  }

  /** A download is cancelled while its last bytes come in. asyncio swallows the request, the file is delivered and the
      record COMPLETED; then the caller of `cancel` resumes and marks it CANCELLED. The file stays. */
  lemma ALateCancelUndoesACompletion()
    ensures Leads(Initial(1, 1, map[]), FetchEvents() + SwallowEvents(), DeliveredAlone())
    ensures Leads(Initial(1, 1, map[]), FetchEvents() + SwallowEvents() + [CancelResume(0)], CancelledAfterAll())
    ensures DeliveredAlone().records[0].state == Completed && CancelledAfterAll().records[0].state == Cancelled
    ensures CancelledAfterAll().disk[SHARED] == [7]
  {
    IsFetched();
    GoesOn();
    IsCancelledAfterAll();
    Append(Initial(1, 1, map[]), FetchEvents(), Received(), SwallowEvents(), DeliveredAlone());
    Append(Initial(1, 1, map[]), FetchEvents() + SwallowEvents(), DeliveredAlone(), [CancelResume(0)],
           CancelledAfterAll());
  }

  // ---------------------------------------------------------------- closing during the media scan

  const SPOOLED := Spool("upload")

  function Sending(): Record { Record(Upload, Overwrite, "/sdcard/photo", Some(SPOOLED), Queued, Some(1), 0, false, 0) }

  /** One upload of one byte, in one slot. */
  function Uploading(r: Record, point: Point, cancelling: bool): State {
    State(1, 1, map[0 := r], map[0 := 0], map[0 := Task(0, point, cancelling)],
          if Task(0, point, cancelling).HoldsPermit() then 0 else 1, map[], map[SPOOLED := [7]])
  }

  /** One block of its task. */
  lemma Goes(r: Record, point: Point, reply: Reply, r': Record, point': Point)
    requires Enabled(Uploading(r, point, false), Resume(0, reply))
    requires Apply(Uploading(r, point, false), Resume(0, reply)) == Uploading(r', point', false)
    ensures Leads(Uploading(r, point, false), [Resume(0, reply)], Uploading(r', point', false))
  {
    One(Uploading(r, point, false), Resume(0, reply));
  }

  function StartEvents(): seq<Event> {
    [Enqueue(0, 0, Sending())] + [Resume(0, Run)] + [Resume(0, DeviceReady)] + [Resume(0, RemoteFree("/sdcard/photo"))]
  }

  lemma StartsUpload()
    ensures Leads(Initial(1, 1, map[SPOOLED := [7]]), StartEvents(),
                  Uploading(Sending().(state := Preparing), MakingDirectory, false))
  {
    var s0 := Initial(1, 1, map[SPOOLED := [7]]);
    assert OpenIds(s0.records) == {};
    var q, r := Sending(), Sending().(state := Preparing);
    assert Apply(s0, Enqueue(0, 0, q)) == Uploading(q, Created, false);
    One(s0, Enqueue(0, 0, q));
    Goes(q, Created, Run, r, CheckingDevice);
    Goes(r, CheckingDevice, DeviceReady, r, ResolvingRemote);
    Goes(r, ResolvingRemote, RemoteFree("/sdcard/photo"), r, MakingDirectory);
    Append(s0, [Enqueue(0, 0, q)], Uploading(q, Created, false), [Resume(0, Run)], Uploading(r, CheckingDevice, false));
    Append(s0, [Enqueue(0, 0, q)] + [Resume(0, Run)], Uploading(r, CheckingDevice, false),
           [Resume(0, DeviceReady)], Uploading(r, ResolvingRemote, false));
    Append(s0, [Enqueue(0, 0, q)] + [Resume(0, Run)] + [Resume(0, DeviceReady)], Uploading(r, ResolvingRemote, false),
           [Resume(0, RemoteFree("/sdcard/photo"))], Uploading(r, MakingDirectory, false));
  }

  function Sent(): Record { Sending().(state := Completed, bytes := 1, verified := true) }

  function PushEvents(): seq<Event> {
    [Resume(0, Returned)] + [Resume(0, Returned)] + [Resume(0, Stat(true, false, 1))]
  }

  lemma SendsTheByte()
    ensures Leads(Uploading(Sending().(state := Preparing), MakingDirectory, false),
                  [Resume(0, Returned)] + [Resume(0, Returned)],
                  Uploading(Sending().(state := Verifying), CheckingRemote, false))
  {
    var r, p, v := Sending().(state := Preparing), Sending().(state := Transferring), Sending().(state := Verifying);
    Goes(r, MakingDirectory, Returned, p, Pushing);
    Goes(p, Pushing, Returned, v, CheckingRemote);
    Append(Uploading(r, MakingDirectory, false), [Resume(0, Returned)], Uploading(p, Pushing, false),
           [Resume(0, Returned)], Uploading(v, CheckingRemote, false));
  }

  lemma MatchesTheSize()
    ensures Leads(Uploading(Sending().(state := Verifying), CheckingRemote, false), [Resume(0, Stat(true, false, 1))],
                  Uploading(Sent(), ScanningMedia, false))
  {
    Goes(Sending().(state := Verifying), CheckingRemote, Stat(true, false, 1), Sent(), ScanningMedia);
  }

  lemma CompletesUpload()
    ensures Leads(Uploading(Sending().(state := Preparing), MakingDirectory, false), PushEvents(),
                  Uploading(Sent(), ScanningMedia, false))
  {
    SendsTheByte();
    MatchesTheSize();
    Append(Uploading(Sending().(state := Preparing), MakingDirectory, false),
           [Resume(0, Returned)] + [Resume(0, Returned)],
           Uploading(Sending().(state := Verifying), CheckingRemote, false), [Resume(0, Stat(true, false, 1))],
           Uploading(Sent(), ScanningMedia, false));
  }

  lemma CancelReachesTheScan()
    ensures Leads(Uploading(Sent(), ScanningMedia, true), [Resume(0, CancelThrown)],
                  Uploading(Sent().(state := Cancelled), Finished, true))
  {
    One(Uploading(Sent(), ScanningMedia, true), Resume(0, CancelThrown));
  }

  lemma CloseReachesTheTask()
    ensures Leads(Uploading(Sent(), ScanningMedia, false), [Close], Uploading(Sent(), ScanningMedia, true))
  {
    assert CloseBegins(Uploading(Sent(), ScanningMedia, false)).loop == map[0 := Task(0, ScanningMedia, true)];
    One(Uploading(Sent(), ScanningMedia, false), Close);
  }

  lemma ClosesService()
    ensures Leads(Uploading(Sent(), ScanningMedia, false), [Close] + [Resume(0, CancelThrown)],
                  Uploading(Sent().(state := Cancelled), Finished, true))
  {
    CloseReachesTheTask();
    CancelReachesTheScan();
    Append(Uploading(Sent(), ScanningMedia, false), [Close], Uploading(Sent(), ScanningMedia, true),
           [Resume(0, CancelThrown)], Uploading(Sent().(state := Cancelled), Finished, true));
  }

  /** An upload is verified and COMPLETED; closing the service while it refreshes the media index makes the
      record CANCELLED, with the size-match mark still on it. */
  lemma ClosingCancelsACompletedUpload()
    ensures Leads(Initial(1, 1, map[SPOOLED := [7]]), StartEvents() + PushEvents(),
                  Uploading(Sent(), ScanningMedia, false))
    ensures Leads(Initial(1, 1, map[SPOOLED := [7]]),
                  StartEvents() + PushEvents() + ([Close] + [Resume(0, CancelThrown)]),
                  Uploading(Sent().(state := Cancelled), Finished, true))
  {
    StartsUpload();
    CompletesUpload();
    ClosesService();
    var s0 := Initial(1, 1, map[SPOOLED := [7]]);
    Append(s0, StartEvents(), Uploading(Sending().(state := Preparing), MakingDirectory, false),
           PushEvents(), Uploading(Sent(), ScanningMedia, false));
    Append(s0, StartEvents() + PushEvents(), Uploading(Sent(), ScanningMedia, false),
           [Close] + [Resume(0, CancelThrown)], Uploading(Sent().(state := Cancelled), Finished, true));
  }
}
