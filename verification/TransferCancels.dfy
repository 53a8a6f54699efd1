/** When a `cancel` comes too late: its task goes on and completes the record, and the call, once it resumes,
    marks the record cancelled all the same. */
module TransferCancels {
  import opened Wrappers
  import opened LocalFiles
  import opened TransferModel
  import opened TransferSafety
  import opened TransferTheorems

  /** In this step the task completes its record. */
  ghost predicate CompletesItsRecord(s: State, e: Event, t: TaskId) {
    && e.Resume? && e.task == t && Enabled(s, e) && s.records[s.loop[t].record].state != Completed
    && s.loop[t].record in Apply(s, e).records && Apply(s, e).records[s.loop[t].record].state == Completed
  }

  ghost predicate NoLateCancel(s: State, events: seq<Event>, id: Id)
    requires Legal(s, events)
    decreases |events|
  {
    events == [] || (!CancelsLate(s, events[0], id) && NoLateCancel(Apply(s, events[0]), events[1..], id))
  }

  /** The task completes the record in this run, and no other `cancel` of it resumes after that. */
  ghost predicate CompletedInTheEnd(s: State, events: seq<Event>, t: TaskId, id: Id)
    requires Legal(s, events)
    decreases |events|
  {
    && events != []
    && ((CompletesItsRecord(s, events[0], t) && NoLateCancel(Apply(s, events[0]), events[1..], id))
        || CompletedInTheEnd(Apply(s, events[0]), events[1..], t, id))
  }

  /** The call has not resumed, and its record is known. */
  ghost predicate Waits(s: State, c: CallId, id: Id, t: TaskId) {
    c in s.waits && s.waits[c] == Wait(id, t) && id in s.records
  }

  lemma WaitStands(s: State, e: Event, c: CallId, id: Id, t: TaskId)
    requires Inv(s) && Enabled(s, e) && Orderly(s, e) && Waits(s, c, id, t) && e != CancelResume(c)
    ensures Waits(Apply(s, e), c, id, t)
  {
    if e.Resume? {
      assert InvAt(s, s.loop[e.task].record);
      ResumeIsTaskStep(s, e.task, e.reply);
    }
  }

  /** While the call waits, only its task can complete the record, and an ended record is not opened again. */
  lemma OnlyItsTaskCompletes(s: State, e: Event, c: CallId, id: Id, t: TaskId)
    requires Inv(s) && Enabled(s, e) && Orderly(s, e) && Waits(s, c, id, t) && s.records[id].state != Completed
    ensures id in Apply(s, e).records
    ensures Apply(s, e).records[id].state == Completed <==> CompletesItsRecord(s, e, t)
    ensures s.records[id].state.Final() ==> Apply(s, e).records[id].state.Final() && !CompletesItsRecord(s, e, t)
  {
    assert InvAt(s, id);
    assert s.loop[t].record == id;
    if e.Resume? {
      assert InvAt(s, s.loop[e.task].record);
      ResumeIsTaskStep(s, e.task, e.reply);
    }
  }

  lemma {:induction false} CompletedUnlessCancelledLate(s: State, events: seq<Event>, c: CallId, id: Id, t: TaskId)
    requires Inv(s) && Legal(s, events) && Waits(s, c, id, t) && s.records[id].state == Completed
    requires CancelResume(c) !in events
    ensures id in Execute(s, events).records
    ensures Execute(s, events).records[id].state == Completed <==> NoLateCancel(s, events, id)
    decreases |events|
  {
    if events != [] {
      StepKeeps(s, events[0]);
      WaitStands(s, events[0], c, id, t);
      CompletedLeftExactlyByALateCancel(s, events[0], id);
      if CancelsLate(s, events[0], id) {
        NotCompletedAgain(Apply(s, events[0]), events[1..], c, id, t);
      } else {
        CompletedUnlessCancelledLate(Apply(s, events[0]), events[1..], c, id, t);
      }
    }
  }

  lemma {:induction false} NotCompletedAgain(s: State, events: seq<Event>, c: CallId, id: Id, t: TaskId)
    requires Inv(s) && Legal(s, events) && Waits(s, c, id, t)
    requires s.records[id].state.Final() && s.records[id].state != Completed
    requires CancelResume(c) !in events
    ensures id in Execute(s, events).records && Execute(s, events).records[id].state != Completed
    ensures !CompletedInTheEnd(s, events, t, id)
    decreases |events|
  {
    if events != [] {
      StepKeeps(s, events[0]);
      WaitStands(s, events[0], c, id, t);
      OnlyItsTaskCompletes(s, events[0], c, id, t);
      NotCompletedAgain(Apply(s, events[0]), events[1..], c, id, t);
    }
  }

  lemma {:induction false} NotCompletedTwice(s: State, events: seq<Event>, c: CallId, id: Id, t: TaskId)
    requires Inv(s) && Legal(s, events) && Waits(s, c, id, t) && s.records[id].state == Completed
    requires CancelResume(c) !in events
    ensures !CompletedInTheEnd(s, events, t, id)
    decreases |events|
  {
    if events != [] {
      assert InvAt(s, id);
      assert s.loop[t].record == id;
      StepKeeps(s, events[0]);
      WaitStands(s, events[0], c, id, t);
      CompletedLeftExactlyByALateCancel(s, events[0], id);
      if CancelsLate(s, events[0], id) {
        NotCompletedAgain(Apply(s, events[0]), events[1..], c, id, t);
      } else {
        NotCompletedTwice(Apply(s, events[0]), events[1..], c, id, t);
      }
    }
  }

  /** Whatever happens between the call and its resumption, the record is then COMPLETED if and only if the task
      the call waits for completed it and no other `cancel` of it has resumed since. */
  lemma {:induction false} CompletedExactlyIfItsTaskWentOn(s: State, events: seq<Event>, c: CallId, id: Id, t: TaskId)
    requires Inv(s) && Legal(s, events) && Waits(s, c, id, t) && s.records[id].state != Completed
    requires CancelResume(c) !in events
    ensures Waits(Execute(s, events), c, id, t) && Inv(Execute(s, events))
    ensures Execute(s, events).records[id].state == Completed <==> CompletedInTheEnd(s, events, t, id)
    decreases |events|
  {
    if events != [] {
      var next := Apply(s, events[0]);
      StepKeeps(s, events[0]);
      WaitStands(s, events[0], c, id, t);
      OnlyItsTaskCompletes(s, events[0], c, id, t);
      if next.records[id].state == Completed {
        RunKeeps(next, events[1..]);
        WaitStandsOverRuns(next, events[1..], c, id, t);
        CompletedUnlessCancelledLate(next, events[1..], c, id, t);
        NotCompletedTwice(next, events[1..], c, id, t);
      } else {
        CompletedExactlyIfItsTaskWentOn(next, events[1..], c, id, t);
      }
    }
  }

  lemma {:induction false} WaitStandsOverRuns(s: State, events: seq<Event>, c: CallId, id: Id, t: TaskId)
    requires Inv(s) && Legal(s, events) && Waits(s, c, id, t) && CancelResume(c) !in events
    ensures Waits(Execute(s, events), c, id, t)
    decreases |events|
  {
    if events != [] {
      StepKeeps(s, events[0]);
      WaitStands(s, events[0], c, id, t);
      WaitStandsOverRuns(Apply(s, events[0]), events[1..], c, id, t);
    }
  }

  /** The request still stands, or the task has ended. */
  ghost predicate Doomed(s: State, t: TaskId) { t in s.loop && (s.loop[t].cancelling || !s.loop[t].Unfinished()) }

  lemma DoomedStays(s: State, e: Event, t: TaskId)
    requires Inv(s) && Enabled(s, e) && Orderly(s, e) && Doomed(s, t) && e != CancelSwallowed(t)
    ensures Doomed(Apply(s, e), t) && !CompletesItsRecord(s, e, t)
  {
    if e.Resume? {
      assert InvAt(s, s.loop[e.task].record);
      ResumeIsTaskStep(s, e.task, e.reply);
    }
  }

  /** A task that was asked to stop completes its record only if asyncio swallowed the request. */
  lemma {:induction false} CompletedOnlyIfSwallowed(s: State, events: seq<Event>, t: TaskId, id: Id)
    requires Inv(s) && Legal(s, events) && Doomed(s, t)
    ensures CompletedInTheEnd(s, events, t, id) ==> CancelSwallowed(t) in events
    decreases |events|
  {
    if events != [] && events[0] != CancelSwallowed(t) {
      StepKeeps(s, events[0]);
      DoomedStays(s, events[0], t);
      CompletedOnlyIfSwallowed(Apply(s, events[0]), events[1..], t, id);
    }
  }

  /** A `cancel` takes its record out of COMPLETED if and only if its own task completed the record meanwhile, and
      no other `cancel` did so before. A download's file stays where it was delivered. */
  lemma ACancelUndoesACompletionExactlyIfItsTaskWentOn(s: State, events: seq<Event>, c: CallId, id: Id, t: TaskId)
    requires Inv(s) && Legal(s, events) && Waits(s, c, id, t) && s.records[id].state != Completed
    requires CancelResume(c) !in events && Enabled(Execute(s, events), CancelResume(c))
    ensures var before := Execute(s, events);
            var after := Apply(before, CancelResume(c));
            && id in before.records && id in after.records && after.records[id].state == Cancelled
            && (before.records[id].state == Completed <==> CompletedInTheEnd(s, events, t, id))
            && SameNamed(before.disk, after.disk)
  {
    CompletedExactlyIfItsTaskWentOn(s, events, c, id, t);
    OnlyCompletionWrites(Execute(s, events), CancelResume(c));
  }
}
