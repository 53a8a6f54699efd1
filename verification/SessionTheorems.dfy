/** One active session a device, over every run of starts, stops and retirements. */
module SessionTheorems {
  import opened Wrappers
  import opened SessionModel
  import opened SessionPruning

  /** An active session is the one the index names for its device. */
  ghost predicate NamedIfActive(r: Registry, id: Id)
    requires id in r.all
  {
    id in r.order && Active(r.all[id].status) ==> r.all[id].serial in r.index && r.index[r.all[id].serial] == id
  }

  ghost predicate Inv(r: Registry) {
    && Registered(r.all, r.order)
    && (forall id :: id in r.all ==> NamedIfActive(r, id))
    && (forall id :: id in r.all && r.all[id].starter.CleaningUp? ==> Terminal(r.all[id].status))
    && (forall serial :: serial in r.index ==> r.index[serial] in r.all && r.all[r.index[serial]].serial == serial)
  }

  /** Whether the index names this session for its device. */
  predicate Named(r: Registry, id: Id) { id in r.all && r.all[id].serial in r.index && r.index[r.all[id].serial] == id }

  /** The final RUNNING write of a start does not land on a registered session whose device was released
      or claimed anew meanwhile. */
  predicate SafeWrite(r: Registry, e: Event) { e.StartSucceeds? && e.id in r.order ==> Named(r, e.id) }

  /** While the session is still active, its start may write RUNNING. */
  lemma ActiveStartsAreSafe(r: Registry, e: Event)
    requires Inv(r) && Enabled(r, e) && e.StartSucceeds? && Active(r.all[e.id].status)
    ensures SafeWrite(r, e)
  {
    assert NamedIfActive(r, e.id);
  }

  lemma RetireKeeps(r: Registry, id: Id, s: Session, now: real)
    requires Inv(r) && id in r.all && s.serial == r.all[id].serial && Terminal(s.status)
    ensures Inv(Retire(r, id, s, now))
  {
    var r' := Retire(r, id, s, now);
    PruneKeepsTheNewest(r'.all, r.order);
    ReleaseKeeps(r, r', id, r'.all[id]);
  }

  /** A finished session gives up its claim; some others may be dropped. */
  lemma ReleaseKeeps(r: Registry, r': Registry, id: Id, s: Session)
    requires Inv(r) && id in r.all && s.serial == r.all[id].serial && Terminal(s.status)
    requires Registered(r'.all, r'.order) && (forall other :: other in r'.order ==> other in r.order)
    requires r'.all == r.all[id := s]
    requires r'.index == if s.serial in r.index && r.index[s.serial] == id then r.index - {s.serial} else r.index
    ensures Inv(r')
  {
    forall other | other in r'.all
      ensures NamedIfActive(r', other)
    {
      if other != id { assert NamedIfActive(r, other); }
    }
  }

  lemma StepKeeps(r: Registry, e: Event)
    requires Inv(r) && Enabled(r, e) && SafeWrite(r, e)
    ensures Inv(Apply(r, e))
  {
    if e.Claim? {
      ClaimKeeps(r, e);
    } else if Retires(e) {
      RetirementKeeps(r, e);
    } else {
      WriteKeeps(r, e);
    }
  }

  predicate Retires(e: Event) { e.RetireFailedStart? || e.StopEnds? || (e.StopBreaks? && e.watched) }

  /** The session as a retirement finds it. */
  function Ending(s: Session, e: Event): Session
    requires Retires(e) && (!e.RetireFailedStart? ==> s.stoppers > 0)
  {
    match e
    case RetireFailedStart(_, _) => s.(starter := Gone)
    case StopEnds(_, lost, now) =>
         s.(status := if lost then Disconnected else Stopped, stopped := Some(now), stoppers := s.stoppers - 1)
    case StopBreaks(_, _, _) => s.(stoppers := s.stoppers - 1, status := Failed)
  }

  lemma RetirementIsRetire(r: Registry, e: Event)
    requires Enabled(r, e) && Retires(e)
    ensures Apply(r, e) == Retire(r, e.id, Ending(r.all[e.id], e), e.now)
  {
  }

  lemma RetirementKeeps(r: Registry, e: Event)
    requires Inv(r) && Enabled(r, e) && Retires(e)
    ensures Inv(Apply(r, e))
  {
    var s := Ending(r.all[e.id], e);
    RetirementIsRetire(r, e);
    assert Terminal(s.status) && s.serial == r.all[e.id].serial;
    RetireKeeps(r, e.id, s, e.now);
  }

  lemma WriteKeeps(r: Registry, e: Event)
    requires Inv(r) && Enabled(r, e) && SafeWrite(r, e) && !e.Claim? && !Retires(e)
    ensures Inv(Apply(r, e))
  {
    var r' := Apply(r, e);
    assert r'.order == r.order && r'.index == r.index;
    OthersKeep(r, r', e.id);
  }

  /** A step that rewrites one session keeps the others named. */
  lemma OthersKeep(r: Registry, r': Registry, id: Id)
    requires Inv(r) && id in r.all && r'.order == r.order && r'.index == r.index && r'.all.Keys == r.all.Keys
    requires forall other :: other in r.all && other != id ==> r'.all[other] == r.all[other]
    requires r'.all[id].serial == r.all[id].serial && (r'.all[id].starter.CleaningUp? ==> Terminal(r'.all[id].status))
    requires id in r.order && Active(r'.all[id].status) ==> Active(r.all[id].status) || Named(r, id)
    ensures Inv(r')
  {
    forall other | other in r'.all
      ensures NamedIfActive(r', other)
    {
      assert NamedIfActive(r, other);
    }
  }

  lemma ClaimKeeps(r: Registry, e: Event)
    requires Inv(r) && Enabled(r, e) && e.Claim?
    ensures Inv(Apply(r, e))
  {
    var r' := Apply(r, e);
    if !Conflict(r, e.serial) {
      forall other | other in r'.all
        ensures NamedIfActive(r', other)
      {
        if other != e.id { assert NamedIfActive(r, other); }
      }
    }
  }

  // ---------------------------------------------------------------- runs

  predicate Legal(r: Registry, events: seq<Event>)
    decreases |events|
  {
    events == [] || (Enabled(r, events[0]) && Legal(Apply(r, events[0]), events[1..]))
  }

  function Execute(r: Registry, events: seq<Event>): Registry
    requires Legal(r, events)
    decreases |events|
  {
    if events == [] then r else Execute(Apply(r, events[0]), events[1..])
  }

  /** No start of the run writes RUNNING over a session that has lost its device. */
  predicate SafeWrites(r: Registry, events: seq<Event>)
    requires Legal(r, events)
    decreases |events|
  {
    events == [] || (SafeWrite(r, events[0]) && SafeWrites(Apply(r, events[0]), events[1..]))
  }

  const EMPTY := Registry(map[], [], map[])

  lemma {:induction false} RunKeeps(r: Registry, events: seq<Event>)
    requires Inv(r) && Legal(r, events) && SafeWrites(r, events)
    ensures Inv(Execute(r, events))
    decreases |events|
  {
    if events != [] {
      StepKeeps(r, events[0]);
      RunKeeps(Apply(r, events[0]), events[1..]);
    }
  }

  /** In every run whose RUNNING writes are safe, each device has at most one active session, and it is the
      one the index names. */
  lemma OneActiveSessionPerDevice(events: seq<Event>)
    requires Legal(EMPTY, events) && SafeWrites(EMPTY, events)
    ensures var r := Execute(EMPTY, events);
            forall id :: id in r.order && id in r.all && Active(r.all[id].status) ==>
              && Named(r, id)
              && forall other :: other in r.order && other in r.all && Active(r.all[other].status) ==>
                   r.all[other].serial == r.all[id].serial ==> other == id
  {
    RunKeeps(EMPTY, events);
    var r := Execute(EMPTY, events);
    forall id | id in r.all
      ensures NamedIfActive(r, id)
    {
    }
  }

  /** The write keeps the invariant exactly when it is safe. */
  lemma RunningWriteKeepsExactlyWhenSafe(r: Registry, e: Event)
    requires Inv(r) && Enabled(r, e) && e.StartSucceeds?
    ensures Inv(Apply(r, e)) <==> SafeWrite(r, e)
  {
    if SafeWrite(r, e) {
      StepKeeps(r, e);
    } else {
      assert !NamedIfActive(Apply(r, e), e.id);
    }
  }

  /** A start is refused exactly when the device has an active session. */
  lemma ConflictsAreExact(r: Registry, serial: Serial)
    requires Inv(r)
    ensures Conflict(r, serial)
            <==> exists id :: id in r.order && id in r.all && r.all[id].serial == serial && Active(r.all[id].status)
  {
    if id :| id in r.order && id in r.all && r.all[id].serial == serial && Active(r.all[id].status) {
      assert NamedIfActive(r, id);
    }
  }

  /** Only a claim names a session, and a claim is released only by the session that holds it. */
  lemma NewerClaimsSurvive(r: Registry, e: Event, serial: Serial)
    requires Enabled(r, e) && serial in r.index
    requires !e.Claim? && r.index[serial] != e.id
    ensures serial in Apply(r, e).index && Apply(r, e).index[serial] == r.index[serial]
  {
  }

  /** Each retirement leaves at most 20 finished sessions, drops none that is unfinished, and drops no
      session newer than a finished one it keeps. */
  lemma RetirementBoundsTheBacklog(r: Registry, e: Event)
    requires Registered(r.all, r.order) && Enabled(r, e) && Retires(e)
    ensures var r' := Apply(r, e);
            && Registered(r'.all, r'.order)
            && |Finished(r'.all, r'.order)| <= MAX_RETAINED
            && (forall id :: id in r.order && !IsFinished(r'.all, id) ==> id in r'.order)
            && (forall gone, stays ::
                  gone in r.order && gone !in r'.order && stays in r'.order && IsFinished(r'.all, stays) ==>
                  AgeOf(r'.all, gone) <= AgeOf(r'.all, stays))
  {
    PruneKeepsTheNewest(Apply(r, e).all, r.order);
  }

  function CleaningUp(all: map<Id, Session>): set<Id> { set id | id in all && all[id].starter.CleaningUp? }

  ghost predicate Bounded(r: Registry) {
    Registered(r.all, r.order) && |Finished(r.all, r.order)| <= MAX_RETAINED + |CleaningUp(r.all)|
  }

  lemma ClaimKeepsBounded(r: Registry, e: Event)
    requires Bounded(r) && Enabled(r, e) && e.Claim?
    ensures Bounded(Apply(r, e))
  {
    var r' := Apply(r, e);
    if r' != r {
      assert e.id !in r.order;
      assert r'.order[..|r.order|] == r.order;
      FinishedGrowsByOne(r.all, r'.all, r.order, e.id);
      assert Finished(r'.all, r'.order) == Finished(r'.all, r.order);
      assert CleaningUp(r'.all) == CleaningUp(r.all);
    }
  }

  /** Rewriting one session makes at most that one finished, and only a failed start does. */
  lemma WriteKeepsBounded(r: Registry, r': Registry, id: Id)
    requires Bounded(r) && id in r.all && r'.order == r.order && r'.all.Keys == r.all.Keys
    requires forall other :: other in r.all && other != id ==> r'.all[other] == r.all[other]
    requires r.all[id].starter.CleaningUp? ==> r'.all[id].starter.CleaningUp?
    requires Terminal(r'.all[id].status) && !Terminal(r.all[id].status) ==>
        !r.all[id].starter.CleaningUp? && r'.all[id].starter.CleaningUp?
    ensures Bounded(r')
  {
    FinishedGrowsByOne(r.all, r'.all, r.order, id);
    assert CleaningUp(r'.all) == CleaningUp(r.all) + (if r'.all[id].starter.CleaningUp? then {id} else {});
  }

  lemma StepKeepsBounded(r: Registry, e: Event)
    requires Bounded(r) && Enabled(r, e)
    ensures Bounded(Apply(r, e))
  {
    if Retires(e) {
      RetirementBoundsTheBacklog(r, e);
    } else if e.Claim? {
      ClaimKeepsBounded(r, e);
    } else {
      var r' := Apply(r, e);
      assert r'.order == r.order;
      WriteKeepsBounded(r, r', e.id);
    }
  }

  /** Over every run, safe or not, the finished sessions kept are at most 20 and the failed starts that are
      still cleaning up. */
  lemma {:induction false} BacklogIsBounded(r: Registry, events: seq<Event>)
    requires Bounded(r) && Legal(r, events)
    ensures Bounded(Execute(r, events))
    decreases |events|
  {
    if events != [] {
      StepKeepsBounded(r, events[0]);
      BacklogIsBounded(Apply(r, events[0]), events[1..]);
    }
  }

  /** Session 1 is stopped while its start is still preparing, the device is claimed by session 2, and then
      the first start finishes. */
  function OverlappingRun(serial: Serial): seq<Event> {
    [Claim(1, serial, false, 1.0)] + ([StopBegins(1)] + ([StopEnds(1, false, 2.0)] + [Claim(2, serial, false, 3.0),
                                                                                      StartSucceeds(1)]))
  }

  /** A start that succeeds after its session was stopped and the device claimed again leaves two active
      sessions on one device. */
  lemma RunningOverAStoppedSession(serial: Serial)
    ensures Legal(EMPTY, OverlappingRun(serial)) && TwoActive(Execute(EMPTY, OverlappingRun(serial)), 1, 2)
  {
    var s := NewSession(serial, false, 1.0);
    var r1 := Registry(map[1 := s], [1], map[serial := 1]);
    var r2 := Registry(map[1 := s.(status := Stopping, stoppers := 1)], [1], map[serial := 1]);
    var r3 := Registry(map[1 := s.(status := Stopped, stopped := Some(2.0))], [1], map[]);
    FirstSteps(s, serial);
    StoppedAlone(1, s, 2.0);
    ClaimedAgain(r3, s, serial);
    var rest := [Claim(2, serial, false, 3.0), StartSucceeds(1)];
    RunFrom(r2, StopEnds(1, false, 2.0), r3, rest);
    RunFrom(r1, StopBegins(1), r2, [StopEnds(1, false, 2.0)] + rest);
    RunFrom(EMPTY, Claim(1, serial, false, 1.0), r1, [StopBegins(1)] + ([StopEnds(1, false, 2.0)] + rest));
  }

  lemma RunFrom(r: Registry, e: Event, r': Registry, rest: seq<Event>)
    requires Enabled(r, e) && Apply(r, e) == r' && Legal(r', rest)
    ensures Legal(r, [e] + rest) && Execute(r, [e] + rest) == Execute(r', rest)
  {
    assert ([e] + rest)[1..] == rest;
  }

  predicate TwoActive(r: Registry, a: Id, b: Id) {
    && a != b && a in r.order && b in r.order && a in r.all && b in r.all
    && Active(r.all[a].status) && Active(r.all[b].status) && r.all[a].serial == r.all[b].serial
  }

  lemma FirstSteps(s: Session, serial: Serial)
    requires s == NewSession(serial, false, 1.0)
    ensures Apply(EMPTY, Claim(1, serial, false, 1.0)) == Registry(map[1 := s], [1], map[serial := 1])
    ensures Apply(Registry(map[1 := s], [1], map[serial := 1]), StopBegins(1))
            == Registry(map[1 := s.(status := Stopping, stoppers := 1)], [1], map[serial := 1])
  {
  }

  lemma OneIsKept(all: map<Id, Session>, order: seq<Id>)
    requires |order| == 1
    ensures Prune(all, order) == order
  {
    assert order[..0] == [];
    assert |Finished(all, order)| <= 1;
    assert order == [order[0]];
    assert Without(order, []) == order;
  }

  /** Retiring the only session releases its claim and prunes nothing. */
  lemma RetiredAlone(r: Registry, id: Id, s: Session, now: real)
    requires r.order == [id] && r.index == map[s.serial := id] && s.stopped.Some? && s.stopped.value != 0.0
    ensures Retire(r, id, s, now) == Registry(r.all[id := s], r.order, map[])
  {
    OneIsKept(r.all[id := s], r.order);
    assert s.(stopped := s.stopped) == s;
    assert r.index - {s.serial} == map[];
  }

  lemma StoppedAlone(id: Id, s: Session, now: real)
    requires now != 0.0
    ensures var r := Registry(map[id := s.(status := Stopping, stoppers := 1)], [id], map[s.serial := id]);
            Apply(r, StopEnds(id, false, now))
              == Registry(map[id := s.(status := Stopped, stopped := Some(now), stoppers := 0)], [id], map[])
  {
    var r := Registry(map[id := s.(status := Stopping, stoppers := 1)], [id], map[s.serial := id]);
    var stopped := s.(status := Stopped, stopped := Some(now), stoppers := 0);
    RetiredAlone(r, id, stopped, now);
    assert r.all[id := stopped] == map[id := stopped];
  }

  lemma ClaimedAgain(r: Registry, s: Session, serial: Serial)
    requires s == NewSession(serial, false, 1.0)
    requires r == Registry(map[1 := s.(status := Stopped, stopped := Some(2.0))], [1], map[])
    ensures var events := [Claim(2, serial, false, 3.0), StartSucceeds(1)];
            Legal(r, events) && TwoActive(Execute(r, events), 1, 2)
  {
    var last := [StartSucceeds(1)];
    var events := [Claim(2, serial, false, 3.0)] + last;
    var r' := Apply(r, events[0]);
    var r'' := Apply(r', last[0]);
    assert events[1..] == last && last[1..] == [];
    assert Legal(r'', []) && Execute(r'', []) == r'';
    assert Legal(r', last) && Execute(r', last) == r'';
    assert Legal(r, events) && Execute(r, events) == r'';
    assert events == [Claim(2, serial, false, 3.0), StartSucceeds(1)];
  }
}
