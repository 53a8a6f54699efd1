/** What the invariant of the transfer queue means for its callers: the life of a record, the
    atomicity of downloads, and that no download is lost. */
module TransferTheorems {
  import opened Wrappers
  import opened LocalFiles
  import opened TransferModel
  import opened TransferSafety

  // ---------------------------------------------------------------- runs

  ghost predicate Legal(s: State, events: seq<Event>)
    decreases |events|
  {
    events == [] || (Enabled(s, events[0]) && Orderly(s, events[0]) && Legal(Apply(s, events[0]), events[1..]))
  }

  ghost function Execute(s: State, events: seq<Event>): State
    requires Legal(s, events)
    decreases |events|
  {
    if events == [] then s else Execute(Apply(s, events[0]), events[1..])
  }

  lemma {:induction false} RunKeeps(s: State, events: seq<Event>)
    requires Inv(s) && Legal(s, events)
    ensures Inv(Execute(s, events))
    decreases |events|
  {
    if events != [] {
      StepKeeps(s, events[0]);
      RunKeeps(Apply(s, events[0]), events[1..]);
    }
  }

  // ---------------------------------------------------------------- the life of a record

  lemma AtMostOneTask(s: State, t: TaskId, u: TaskId)
    requires Inv(s) && t in s.loop && u in s.loop && s.loop[t].Unfinished() && s.loop[u].Unfinished()
    requires s.loop[t].record == s.loop[u].record
    ensures t == u && s.loop[t].record in s.tasks && s.tasks[s.loop[t].record] == t
  {
    assert InvAt(s, s.loop[t].record);
  }

  /** An open record is driven by exactly one unfinished task, the one `_tasks` names, if and only if no
      cancel call on it is about to resume; if one is, the record is still QUEUED. */
  lemma OpenRecordIsDriven(s: State, id: Id)
    requires Inv(s) && id in s.records && !s.records[id].state.Final()
    ensures HasTask(s, id) <==> !AwaitsCancel(s, id)
    ensures AwaitsCancel(s, id) ==> s.records[id].state == Queued
    ensures HasTask(s, id) ==> s.loop[s.tasks[id]].record == id
    ensures forall t :: t in s.loop && s.loop[t].record == id && s.loop[t].Unfinished() ==>
        HasTask(s, id) && s.tasks[id] == t
  {
    assert InvAt(s, id);
  }

  /** A done-callback that arrives after a retry leaves the retried record its task. */
  lemma StaleCallbackIsHarmless(s: State, t: TaskId, id: Id)
    requires Inv(s) && t in s.loop && s.loop[t].point.Finished? && HasTask(s, id)
    ensures HasTask(Discard(s, t), id) && Discard(s, t).tasks[id] == s.tasks[id]
  {
    assert InvAt(s, id);
  }

  function ActiveIds(s: State): set<Id> { set id | id in s.records && s.records[id].state.Active() }

  lemma {:induction false} ImageFits(ids: set<Id>, tasks: map<Id, TaskId>, holders: set<TaskId>)
    requires forall id :: id in ids ==> id in tasks && tasks[id] in holders
    requires forall i, j :: i in ids && j in ids && tasks[i] == tasks[j] ==> i == j
    ensures |ids| <= |holders|
  {
    if ids != {} {
      var id :| id in ids;
      ImageFits(ids - {id}, tasks, holders - {tasks[id]});
    }
  }

  /** No more records prepare, transfer or verify at once than the concurrency allows. */
  lemma ConcurrencyIsBounded(s: State)
    requires Inv(s)
    ensures |ActiveIds(s)| <= s.concurrency
  {
    var ids := ActiveIds(s);
    forall id | id in ids ensures id in s.tasks && s.tasks[id] in Holders(s.loop) && s.loop[s.tasks[id]].record == id {
      assert InvAt(s, id);
    }
    ImageFits(ids, s.tasks, Holders(s.loop));
  }

  /** A task that is still unfinished on a completed record is an upload refreshing the media index. */
  lemma CompletedUnderResume(s: State, t: TaskId, reply: Reply, id: Id)
    requires Inv(s) && Accepts(s, t, reply)
    requires id in s.records && s.records[id].state == Completed
    ensures id in ResumeTask(s, t, reply).records
    ensures var r, r' := s.records[id], ResumeTask(s, t, reply).records[id]; r' == r.(local := r'.local)
    ensures s.records[id].direction.Download? ==> ResumeTask(s, t, reply).records[id] == s.records[id]
  {
    assert InvAt(s, s.loop[t].record);
    if s.loop[t].record == id {
      assert ResumeTask(s, t, reply) == FinishUpload(s, t);
    } else {
      ResumeIsTaskStep(s, t, reply);
    }
  }

  /** This step resumes a `cancel` of the record. */
  ghost predicate CancelsLate(s: State, e: Event, id: Id) {
    e.CancelResume? && e.call in s.waits && s.waits[e.call].record == id
  }

  /** A step of an open, orderly service takes a record out of COMPLETED if and only if it resumes a `cancel`
      of it, whose task went on and completed. It then only changes the state. In every other step the record
      stays as it is but for the spool path an upload gives up. */
  lemma CompletedLeftExactlyByALateCancel(s: State, e: Event, id: Id)
    requires Inv(s) && Enabled(s, e) && Orderly(s, e)
    requires id in s.records && s.records[id].state == Completed
    ensures id in Apply(s, e).records
    ensures Apply(s, e).records[id].state != Completed <==> CancelsLate(s, e, id)
    ensures CancelsLate(s, e, id) ==> Apply(s, e).records[id] == s.records[id].(state := Cancelled)
    ensures !CancelsLate(s, e, id) ==> Apply(s, e).records[id] == s.records[id].(local := Apply(s, e).records[id].local)
    ensures !CancelsLate(s, e, id) && s.records[id].direction.Download? ==> Apply(s, e).records[id] == s.records[id]
  {
    if e.Resume? {
      CompletedUnderResume(s, e.task, e.reply, id);
    } else if e.CancelResume? {
      assert InvAt(s, s.waits[e.call].record);
    }
  }

  /** COMPLETED means size-checked: every byte of the announced size arrived. */
  lemma CompletedMeansVerified(s: State, id: Id)
    requires Inv(s) && id in s.records && s.records[id].state == Completed
    ensures s.records[id].verified && s.records[id].size == Some(s.records[id].bytes)
  {
    assert InvAt(s, id);
  }

  // ---------------------------------------------------------------- queue capacity

  lemma ResumeOpensNothing(s: State, t: TaskId, reply: Reply)
    requires Inv(s) && Accepts(s, t, reply)
    ensures OpenIds(ResumeTask(s, t, reply).records) <= OpenIds(s.records)
  {
    var id := s.loop[t].record;
    assert InvAt(s, id);
    ResumeIsTaskStep(s, t, reply);
    if s.records[id].state == Completed { CompletedUnderResume(s, t, reply, id); }
  }

  lemma CancelOpensNothing(s: State, e: Event)
    requires Enabled(s, e) && (e.CancelCall? || e.CancelResume? || e.CancelSwallowed? || e.DoneCallback?
                               || e.Environment?)
    ensures OpenIds(Apply(s, e).records) <= OpenIds(s.records)
  {
  }

  lemma OpensOne(records: map<Id, Record>, id: Id, r: Record)
    requires id !in OpenIds(records) && r.state == Queued
    ensures |OpenIds(records[id := r])| == |OpenIds(records)| + 1
  {
    var before, after := OpenIds(records), OpenIds(records[id := r]);
    forall i
      ensures i in after <==> i in before || i == id
    {
    }
    assert after == before + {id};
  }

  /** Every step keeps the queue within its capacity, except exactly a retry into a full queue. */
  lemma CapacityKeptUnlessRetried(s: State, e: Event)
    requires Inv(s) && Enabled(s, e) && Orderly(s, e) && |OpenIds(s.records)| <= s.maximum
    ensures |OpenIds(Apply(s, e).records)| <= s.maximum
            <==> !(e.Retry? && CanRetry(s, e.id) && |OpenIds(s.records)| == s.maximum)
  {
    if e.Retry? {
      if CanRetry(s, e.id) { OpensOne(s.records, e.id, Apply(s, e).records[e.id]); }
    } else if e.Enqueue? {
      if |OpenIds(s.records)| < s.maximum { OpensOne(s.records, e.id, e.record); }
    } else {
      if e.Resume? { ResumeOpensNothing(s, e.task, e.reply); } else { CancelOpensNothing(s, e); }
      SubsetIsSmaller(OpenIds(Apply(s, e).records), OpenIds(s.records));
    }
  }

  // ---------------------------------------------------------------- download atomicity

  /** `t` is a download whose `pull` just delivered `total` bytes, all of them expected. */
  ghost predicate Completes(s: State, e: Event) {
    && e.Resume? && e.reply.Returned? && TaskKnown(s, e.task) && Accepts(s, e.task, e.reply)
    && s.loop[e.task].point.Receiving?
    && s.loop[e.task].point.received == s.loop[e.task].point.total == s.loop[e.task].point.expected
  }

  ghost predicate SameNamed(a: Disk, b: Disk) {
    forall p: LocalPath :: p.Named? ==> (p in a <==> p in b) && (p in a && p in b ==> a[p] == b[p])
  }

  lemma QuietCancel(s: State, t: TaskId)
    requires Inv(s) && Accepts(s, t, CancelThrown)
    ensures SameNamed(s.disk, ResumeTask(s, t, CancelThrown).disk)
  {
  }

  lemma QuietResume(s: State, t: TaskId, reply: Reply)
    requires Accepts(s, t, reply) && !reply.CancelThrown? && InvAt(s, s.loop[t].record)
    requires !Completes(s, Resume(t, reply))
    ensures SameNamed(s.disk, ResumeTask(s, t, reply).disk)
  {
    assert s.tasks[s.loop[t].record] == t;
  }

  /** The service changes no file the user names, in any step that does not complete a download. */
  lemma OnlyCompletionWrites(s: State, e: Event)
    requires Inv(s) && Enabled(s, e) && Orderly(s, e) && !e.Environment? && !Completes(s, e)
    ensures SameNamed(s.disk, Apply(s, e).disk)
  {
    if e.Resume? {
      assert InvAt(s, s.loop[e.task].record);
      if e.reply.CancelThrown? { QuietCancel(s, e.task); } else { QuietResume(s, e.task, e.reply); }
    }
  }

  /** The step that completes a download is the step that writes its destination, with exactly the
      received bytes; it removes the part file and changes nothing else on the disk. */
  lemma CompletionWrites(s: State, t: TaskId)
    requires Inv(s) && Accepts(s, t, Returned) && Completes(s, Resume(t, Returned))
    ensures var id := s.loop[t].record;
            && s.records[id].local.Some? && s.records[id].local.value.Named?
            && var final := s.records[id].local.value;
               var s' := ResumeTask(s, t, Returned);
            && PartOf(final, id) in s.disk && |s.disk[PartOf(final, id)]| == s.loop[t].point.expected
            && s'.disk == s.disk[final := s.disk[PartOf(final, id)]] - {PartOf(final, id)}
            && s'.records == s.records[id := s.records[id].(state := Completed, verified := true,
                                                             bytes := s.loop[t].point.expected)]
            && s'.records[id].size == Some(s'.records[id].bytes)
  {
    assert InvAt(s, s.loop[t].record);
  }

  /** Whenever a download is not being received, no part file of it exists: any failure or
      cancellation, at any suspension point, leaves none behind. */
  lemma NoPartLeftBehind(s: State, id: Id, p: LocalPath)
    requires Inv(s) && id in s.records && p.Part? && p.transfer == id
    requires s.records[id].state != Transferring
    ensures p !in s.disk
  {
    assert InvAt(s, id);
  }
}
