/** Where the guarantees of the transfer queue end: with two slots, in a closing service, and when a
    record is retried while a `cancel` of it has not returned. */
module TransferLimits {
  import opened Wrappers
  import opened LocalFiles
  import opened TransferModel
  import opened TransferSafety
  import opened TransferNoLoss
  import opened TransferTheorems

  /** `s` reaches `s'` by the events, each one possible when it happens. */
  ghost predicate Leads(s: State, events: seq<Event>, s': State)
    decreases |events|
  {
    if events == [] then s == s'
    else Enabled(s, events[0]) && Leads(Apply(s, events[0]), events[1..], s')
  }

  lemma Then(s: State, e: Event, rest: seq<Event>, s': State)
    requires Enabled(s, e) && Leads(Apply(s, e), rest, s')
    ensures Leads(s, [e] + rest, s')
  {
    assert ([e] + rest)[1..] == rest;
  }

  const SHARED := Named("downloads", "photo")

  function Request(): Record {
    Record(Download, Rename, "/sdcard/photo", Some(SHARED), Queued, None, 0, false, 0)
  }

  function Fetched(): Record { Request().(state := Transferring, size := Some(1), bytes := 1) }

  /** Two downloads of one name are queued and admitted to two of the `c` slots. */
  function Admitted(c: nat, maximum: nat): State
    requires c >= 2 && maximum >= 2
  {
    State(c, maximum, map[0 := Request().(state := Preparing), 1 := Request().(state := Preparing)],
          map[0 := 0, 1 := 1],
          map[0 := Task(0, CheckingDevice, false), 1 := Task(1, CheckingDevice, false)], c - 2, map[], map[])
  }

  lemma Admission(c: nat, maximum: nat)
    requires c >= 2 && maximum >= 2
    ensures Leads(Initial(c, maximum, map[]), AdmitEvents(), Admitted(c, maximum))
  {
    var s0 := Initial(c, maximum, map[]);
    var s1 := Apply(s0, Enqueue(0, 0, Request()));
    assert OpenIds(s0.records) == {} && OpenIds(s1.records) == {0};
    var s2 := Apply(s1, Enqueue(1, 1, Request()));
    var s3 := Apply(s2, Resume(0, Run));
    var s4 := Apply(s3, Resume(1, Run));
    assert s4 == Admitted(c, maximum);
    Then(s3, Resume(1, Run), [], s4);
    Then(s2, Resume(0, Run), [Resume(1, Run)], s4);
    Then(s1, Enqueue(1, 1, Request()), [Resume(0, Run)] + [Resume(1, Run)], s4);
    Then(s0, Enqueue(0, 0, Request()), [Enqueue(1, 1, Request())] + ([Resume(0, Run)] + [Resume(1, Run)]), s4);
    assert AdmitEvents()
        == [Enqueue(0, 0, Request())] + ([Enqueue(1, 1, Request())] + ([Resume(0, Run)] + [Resume(1, Run)]));
  }

  lemma HeadAndTail<T>(a: seq<T>, b: seq<T>)
    requires a != []
    ensures (a + b)[0] == a[0] && (a + b)[1..] == a[1..] + b && a + b != []
  {
  }

  lemma {:induction false} Append(s: State, a: seq<Event>, m: State, b: seq<Event>, s': State)
    requires Leads(s, a, m) && Leads(m, b, s')
    ensures Leads(s, a + b, s')
    decreases |a|
  {
    if a == [] {
      assert a + b == b;
    } else {
      Append(Apply(s, a[0]), a[1..], m, b, s');
      HeadAndTail(a, b);
    }
  }

  lemma One(s: State, e: Event)
    requires Enabled(s, e)
    ensures Leads(s, [e], Apply(s, e))
  {
    assert Leads(Apply(s, e), [e][1..], Apply(s, e));
  }

  /** One of them resolves the name, which is free, and states its source. */
  lemma Resolves(s: State, t: TaskId)
    requires t in s.loop && s.loop[t] == Task(t, CheckingDevice, false)
    requires t in s.records && s.records[t] == Request().(state := Preparing)
    requires SHARED !in s.disk
    ensures Leads(s, [Resume(t, DeviceReady)] + [Resume(t, Stat(true, false, 1))],
                  s.(records := s.records[t := Request().(state := Transferring, size := Some(1))],
                     loop := s.loop[t := Task(t, StatingAgain(1), false)]))
  {
    var s1 := Apply(s, Resume(t, DeviceReady));
    assert s1 == s.(loop := s1.loop) by { assert s1.records == s.records; }
    var s2 := Apply(s1, Resume(t, Stat(true, false, 1)));
    One(s, Resume(t, DeviceReady));
    One(s1, Resume(t, Stat(true, false, 1)));
    Append(s, [Resume(t, DeviceReady)], s1, [Resume(t, Stat(true, false, 1))], s2);
    assert s2.loop == s.loop[t := Task(t, StatingAgain(1), false)];
    assert s2.records == s.records[t := Request().(state := Transferring, size := Some(1))];
  }

  /** It then receives its only byte. */
  lemma Receives(s: State, t: TaskId, data: Bytes)
    requires t in s.loop && s.loop[t] == Task(t, StatingAgain(1), false)
    requires t in s.records && s.records[t] == Request().(state := Transferring, size := Some(1))
    requires |data| == 1
    ensures Leads(s, [Resume(t, Stat(true, false, 1))] + [Resume(t, Received(data))],
                  s.(records := s.records[t := Fetched()], loop := s.loop[t := Task(t, Receiving(1, 1, 1), false)],
                     disk := s.disk[PartOf(SHARED, t) := data]))
  {
    var s1 := Apply(s, Resume(t, Stat(true, false, 1)));
    var s2 := Apply(s1, Resume(t, Received(data)));
    One(s, Resume(t, Stat(true, false, 1)));
    One(s1, Resume(t, Received(data)));
    Append(s, [Resume(t, Stat(true, false, 1))], s1, [Resume(t, Received(data))], s2);
    assert [] + data == data;
    assert s2.disk == s.disk[PartOf(SHARED, t) := data];
    assert s2.loop == s.loop[t := Task(t, Receiving(1, 1, 1), false)];
    assert s2.records == s.records[t := Fetched()];
  }

  /** The download is delivered over whatever is at the name now. */
  lemma Delivers(s: State, t: TaskId, data: Bytes)
    requires t in s.loop && s.loop[t] == Task(t, Receiving(1, 1, 1), false)
    requires t in s.records && s.records[t] == Fetched()
    requires PartOf(SHARED, t) in s.disk && s.disk[PartOf(SHARED, t)] == data && |data| == 1
    ensures Leads(s, [Resume(t, Returned)],
                  s.(records := s.records[t := Fetched().(state := Completed, verified := true)],
                     loop := s.loop[t := Task(t, Finished, false)], permits := s.permits + 1,
                     disk := s.disk[SHARED := data] - {PartOf(SHARED, t)}))
  {
    One(s, Resume(t, Returned));
  }

  function ResolveEvents(t: TaskId): seq<Event> { [Resume(t, DeviceReady)] + [Resume(t, Stat(true, false, 1))] }

  function ReceiveEvents(t: TaskId, data: Bytes): seq<Event> {
    [Resume(t, Stat(true, false, 1))] + [Resume(t, Received(data))]
  }

  function AdmitEvents(): seq<Event> {
    [Enqueue(0, 0, Request()), Enqueue(1, 1, Request()), Resume(0, Run), Resume(1, Run)]
  }

  function BothReceived(c: nat, maximum: nat): State
    requires c >= 2 && maximum >= 2
  {
    State(c, maximum, map[0 := Fetched(), 1 := Fetched()], map[0 := 0, 1 := 1],
          map[0 := Task(0, Receiving(1, 1, 1), false), 1 := Task(1, Receiving(1, 1, 1), false)], c - 2, map[],
          map[PartOf(SHARED, 0) := [7], PartOf(SHARED, 1) := [8]])
  }

  lemma BothResolveTheName(c: nat, maximum: nat)
    requires c >= 2 && maximum >= 2
    ensures Leads(Admitted(c, maximum),
                  ResolveEvents(0) + ResolveEvents(1) + ReceiveEvents(0, [7]) + ReceiveEvents(1, [8]),
                  BothReceived(c, maximum))
  {
    var a := Admitted(c, maximum);
    Resolves(a, 0);
    var b := a.(records := a.records[0 := Request().(state := Transferring, size := Some(1))],
                loop := a.loop[0 := Task(0, StatingAgain(1), false)]);
    Resolves(b, 1);
    var m := b.(records := b.records[1 := Request().(state := Transferring, size := Some(1))],
                loop := b.loop[1 := Task(1, StatingAgain(1), false)]);
    Receives(m, 0, [7]);
    var d := m.(records := m.records[0 := Fetched()], loop := m.loop[0 := Task(0, Receiving(1, 1, 1), false)],
                disk := m.disk[PartOf(SHARED, 0) := [7]]);
    Receives(d, 1, [8]);
    var f := d.(records := d.records[1 := Fetched()], loop := d.loop[1 := Task(1, Receiving(1, 1, 1), false)],
                disk := d.disk[PartOf(SHARED, 1) := [8]]);
    assert f == BothReceived(c, maximum);
    Append(a, ResolveEvents(0), b, ResolveEvents(1), m);
    Append(a, ResolveEvents(0) + ResolveEvents(1), m, ReceiveEvents(0, [7]), d);
    Append(a, ResolveEvents(0) + ResolveEvents(1) + ReceiveEvents(0, [7]), d, ReceiveEvents(1, [8]), f);
  }

  function Lost(c: nat, maximum: nat): State {
    var r := Fetched().(state := Completed, verified := true);
    State(c, maximum, map[0 := r, 1 := r], map[0 := 0, 1 := 1],
          map[0 := Task(0, Finished, false), 1 := Task(1, Finished, false)], c, map[], map[SHARED := [8]])
  }

  /** The whole run, from an empty service with two slots. */
  function TwoSlotRun(): seq<Event> {
    AdmitEvents() + (ResolveEvents(0) + ResolveEvents(1) + ReceiveEvents(0, [7]) + ReceiveEvents(1, [8]))
    + ([Resume(0, Returned)] + [Resume(1, Returned)])
  }

  lemma BothDeliver(c: nat, maximum: nat)
    requires c >= 2 && maximum >= 2
    ensures Leads(BothReceived(c, maximum), [Resume(0, Returned)] + [Resume(1, Returned)], Lost(c, maximum))
  {
    var f := BothReceived(c, maximum);
    Delivers(f, 0, [7]);
    var g := f.(records := f.records[0 := Fetched().(state := Completed, verified := true)],
                loop := f.loop[0 := Task(0, Finished, false)], permits := f.permits + 1,
                disk := f.disk[SHARED := [7]] - {PartOf(SHARED, 0)});
    Delivers(g, 1, [8]);
    var h := g.(records := g.records[1 := Fetched().(state := Completed, verified := true)],
                loop := g.loop[1 := Task(1, Finished, false)], permits := g.permits + 1,
                disk := g.disk[SHARED := [8]] - {PartOf(SHARED, 1)});
    assert h.disk == map[SHARED := [8]];
    assert h == Lost(c, maximum);
    Append(f, [Resume(0, Returned)], g, [Resume(1, Returned)], h);
  }

  /** With two or more slots, two downloads of one name both complete at the same path, and only the byte
      of the later one is there. */
  lemma TwoSlotsLoseADownload(c: nat, maximum: nat)
    requires c >= 2 && maximum >= 2
    ensures Leads(Initial(c, maximum, map[]), TwoSlotRun(), Lost(c, maximum))
    ensures Delivered(Lost(c, maximum).records[0]) && Delivered(Lost(c, maximum).records[1])
    ensures Lost(c, maximum).records[0].local == Lost(c, maximum).records[1].local == Some(SHARED)
            && Lost(c, maximum).disk[SHARED] == [8]
  {
    var fetch := ResolveEvents(0) + ResolveEvents(1) + ReceiveEvents(0, [7]) + ReceiveEvents(1, [8]);
    var deliver := [Resume(0, Returned)] + [Resume(1, Returned)];
    Admission(c, maximum);
    BothResolveTheName(c, maximum);
    BothDeliver(c, maximum);
    Append(Initial(c, maximum, map[]), AdmitEvents(), Admitted(c, maximum), fetch, BothReceived(c, maximum));
    Append(Initial(c, maximum, map[]), AdmitEvents() + fetch, BothReceived(c, maximum), deliver, Lost(c, maximum));
  }

  ghost predicate IsRequest(e: Event) { e.Resume? || (e.Enqueue? && e.record.policy == Rename) }

  /** A run of requests under the Rename policy and of blocks of their tasks is orderly and quiet. */
  lemma {:induction false} RequestsAreQuiet(s: State, events: seq<Event>, s': State)
    requires Leads(s, events, s')
    requires forall e :: e in events ==> IsRequest(e)
    ensures Legal(s, events) && Quiet(s, events) && Execute(s, events) == s'
    decreases |events|
  {
    if events != [] {
      assert events[0] in events;
      RequestsAreQuiet(Apply(s, events[0]), events[1..], s');
    }
  }

  /** Every quiet run of a fresh service keeps completed downloads at files of their own. */
  ghost predicate AlwaysKeeps(c: nat, maximum: nat, disk: Disk) {
    forall events :: Legal(Initial(c, maximum, disk), events) && Quiet(Initial(c, maximum, disk), events) ==>
      Kept(Execute(Initial(c, maximum, disk), events))
  }

  lemma TheRunIsOfRequests()
    ensures forall e :: e in TwoSlotRun() ==> IsRequest(e)
  {
    assert forall e :: e in AdmitEvents() ==> IsRequest(e);
    assert forall t, e :: e in ResolveEvents(t) ==> IsRequest(e);
    assert forall t, data, e :: e in ReceiveEvents(t, data) ==> IsRequest(e);
  }

  lemma LostIsNotKept(c: nat, maximum: nat)
    ensures !Kept(Lost(c, maximum))
  {
    assert Lost(c, maximum).records[0].local == Lost(c, maximum).records[1].local;
  }

  lemma MoreSlotsDoNotKeep(c: nat, maximum: nat)
    requires c >= 2 && maximum >= 2
    ensures !AlwaysKeeps(c, maximum, map[])
  {
    TwoSlotsLoseADownload(c, maximum);
    TheRunIsOfRequests();
    RequestsAreQuiet(Initial(c, maximum, map[]), TwoSlotRun(), Lost(c, maximum));
    LostIsNotKept(c, maximum);
  }

  lemma OneSlotKeeps(maximum: nat, disk: Disk)
    requires forall p: LocalPath :: p in disk ==> !p.Part?
    ensures AlwaysKeeps(1, maximum, disk)
  {
    forall events | Legal(Initial(1, maximum, disk), events) && Quiet(Initial(1, maximum, disk), events)
      ensures Kept(Execute(Initial(1, maximum, disk), events))
    {
      OneSlotKeepsEveryDownload(maximum, disk, events);
    }
  }

  /** One slot is needed, and enough. */
  lemma DownloadsAreKeptExactlyWithOneSlot(c: nat, maximum: nat)
    requires c >= 1 && maximum >= 2
    ensures AlwaysKeeps(c, maximum, map[]) <==> c == 1
  {
    if c == 1 { OneSlotKeeps(maximum, map[]); } else { MoreSlotsDoNotKeep(c, maximum); }
  }

  // ---------------------------------------------------------------- closing and retrying

  /** `close` cancels the tasks it finds. What it does to a completed record is exactly this: a record
      whose task was still refreshing the media index leaves COMPLETED, every other one stays. */
  lemma ClosingLosesCompletedExactlyDuringMediaScan(s: State, t: TaskId, id: Id)
    requires Inv(s) && t in s.loop && s.loop[t].record == id && s.loop[t].Unfinished()
    requires id in s.records && Accepts(CloseBegins(s), t, CancelThrown)
    ensures var r := ResumeTask(CloseBegins(s), t, CancelThrown).records[id];
            (s.records[id].state == Completed && r.state != Completed) <==> s.loop[t].point.ScanningMedia?
  {
    assert InvAt(s, id);
  }

  /** The state after the run below: one record, cancelled, driven by two unfinished tasks. */
  function Doubled(): State {
    State(1, 9, map[0 := Request().(retries := 2)], map[0 := 2],
          map[0 := Task(0, Finished, true), 1 := Task(0, Created, false), 2 := Task(0, Created, false)], 1, map[],
          map[])
  }

  function CancelledOnce(): State {
    State(1, 9, map[0 := Request().(state := Cancelled)], map[0 := 0], map[0 := Task(0, Finished, true)],
          1, map[0 := Wait(0, 0)], map[])
  }

  function CancelEvents(): seq<Event> {
    [Enqueue(0, 0, Request())] + [Resume(0, Blocked)] + [CancelCall(0, 0)] + [Resume(0, CancelThrown)]
  }

  /** The state in which the caller of `cancel` waits for the task. */
  function CancelWaits(): State {
    Apply(Apply(Apply(Initial(1, 9, map[]), Enqueue(0, 0, Request())), Resume(0, Blocked)), CancelCall(0, 0))
  }

  lemma CancelIsCalled()
    ensures Leads(Initial(1, 9, map[]), [Enqueue(0, 0, Request())] + [Resume(0, Blocked)] + [CancelCall(0, 0)],
                  CancelWaits())
  {
    var s0 := Initial(1, 9, map[]);
    assert OpenIds(s0.records) == {};
    var s1 := Apply(s0, Enqueue(0, 0, Request()));
    One(s0, Enqueue(0, 0, Request()));
    var s2 := Apply(s1, Resume(0, Blocked));
    One(s1, Resume(0, Blocked));
    One(s2, CancelCall(0, 0));
    Append(s0, [Enqueue(0, 0, Request())], s1, [Resume(0, Blocked)], s2);
    Append(s0, [Enqueue(0, 0, Request())] + [Resume(0, Blocked)], s2, [CancelCall(0, 0)], CancelWaits());
  }

  lemma CancelIsThrown()
    ensures Leads(CancelWaits(), [Resume(0, CancelThrown)], CancelledOnce())
  {
    assert OpenIds(Initial(1, 9, map[]).records) == {};
    One(CancelWaits(), Resume(0, CancelThrown));
    assert Apply(CancelWaits(), Resume(0, CancelThrown)) == CancelledOnce();
  }

  lemma CancelEndsTheTask()
    ensures Leads(Initial(1, 9, map[]), CancelEvents(), CancelledOnce())
  {
    CancelIsCalled();
    CancelIsThrown();
    Append(Initial(1, 9, map[]), [Enqueue(0, 0, Request())] + [Resume(0, Blocked)] + [CancelCall(0, 0)], CancelWaits(),
           [Resume(0, CancelThrown)], CancelledOnce());
  }

  /** `cancel` marks the record after its task ended, without looking whether someone retried it
      meanwhile; a second retry then gives the record a second task. So `Orderly` is needed. */
  lemma RetryDuringCancelDoublesTheTask()
    ensures Leads(Initial(1, 9, map[]), CancelEvents() + [Retry(0, 1), CancelResume(0), Retry(0, 2)], Doubled())
    ensures Doubled().loop[1].record == Doubled().loop[2].record == 0
    ensures Doubled().loop[1].Unfinished() && Doubled().loop[2].Unfinished()
  {
    CancelEndsTheTask();
    RetriesDouble(CancelledOnce());
    Append(Initial(1, 9, map[]), CancelEvents(), CancelledOnce(), [Retry(0, 1), CancelResume(0), Retry(0, 2)],
           Doubled());
  }

  /** A retry of a retryable record keeps the invariant exactly if no `cancel` of the record is waiting. */
  lemma RetryKeepsExactlyWithoutAWait(s: State, id: Id, t: TaskId)
    requires Inv(s) && CanRetry(s, id) && t !in s.loop
    ensures Inv(RetryRecord(s, id, t)) <==> forall c :: c in s.waits ==> s.waits[c].record != id
  {
    assert InvAt(s, id);
    if forall c :: c in s.waits ==> s.waits[c].record != id {
      StepKeeps(s, Retry(id, t));
    } else {
      var c :| c in s.waits && s.waits[c].record == id;
      var s' := RetryRecord(s, id, t);
      assert HasTask(s', id) && s'.waits == s.waits && !WaitsOk(s', id);
      assert !InvAt(s', id);
    }
  }

  lemma RetriesDouble(s: State)
    requires s == CancelledOnce()
    ensures Leads(s, [Retry(0, 1), CancelResume(0), Retry(0, 2)], Doubled())
  {
    var e := [Retry(0, 1), CancelResume(0), Retry(0, 2)];
    var s1 := Apply(s, e[0]);
    var s2 := Apply(s1, e[1]);
    var s3 := Apply(s2, e[2]);
    assert s3.disk == map[] && s3.waits == map[] && s3.loop == Doubled().loop && s3.records == Doubled().records;
    One(s, e[0]);
    One(s1, e[1]);
    One(s2, e[2]);
    Append(s, [e[0]], s1, [e[1]], s2);
    Append(s, [e[0]] + [e[1]], s2, [e[2]], s3);
    assert e == [e[0]] + [e[1]] + [e[2]];
  }
}
