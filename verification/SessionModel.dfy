/** The registry of screen sessions: which one each device's serial names, and which finished ones are kept.

    A start and a stop each run in blocks between their suspension points. The registry's lock is never
    held across one, so claiming a serial and retiring a session are single steps; resources are prepared
    and cleaned up in between. A coroutine keeps its session even when the registry has dropped it. */
module SessionModel {
  import opened Wrappers

  type Id = nat

  datatype Serial = Serial(text: string)

  datatype Status =
    | Idle | Probing | Starting | CreatingDisplay | LaunchingApp | ConnectingVideo | ConnectingControl | Running
    | Resizing
    | Stopping | Stopped | Disconnected | Failed

  /** The states in which a session holds its device. */
  predicate Active(s: Status) {
    s.Probing? || s.Starting? || s.CreatingDisplay? || s.LaunchingApp? || s.ConnectingVideo? || s.ConnectingControl?
      || s.Running? || s.Resizing?
  }

  predicate Terminal(s: Status) { s.Stopped? || s.Disconnected? || s.Failed? }

  /** How far the coroutine that started a session has come. */
  datatype Starter = Preparing | CleaningUp | Gone

  /** `stoppers` counts the stop calls that are cleaning up. */
  datatype Session = Session(serial: Serial, status: Status, created: real, stopped: Option<real>, starter: Starter,
                             stoppers: nat)

  /** `order` lists the registered sessions as they were added; `all` also holds the dropped ones. */
  datatype Registry = Registry(all: map<Id, Session>, order: seq<Id>, index: map<Serial, Id>)

  const MAX_RETAINED := 20

  datatype Event =
    | Claim(id: Id, serial: Serial, virtual: bool, now: real)
    | StartSucceeds(id: Id)
    | StartFails(id: Id)
    | StartAbandoned(id: Id)
    | RetireFailedStart(id: Id, now: real)
    | StopBegins(id: Id)
    | StopEnds(id: Id, lost: bool, now: real)
    | StopBreaks(id: Id, watched: bool, now: real)

  // ---------------------------------------------------------------- pruning

  /** The time by which finished sessions are sorted: `stopped_at or created_at`. */
  function Age(s: Session): real { if s.stopped.Some? && s.stopped.value != 0.0 then s.stopped.value else s.created }

  function AgeOf(all: map<Id, Session>, id: Id): real { if id in all then Age(all[id]) else 0.0 }

  predicate IsFinished(all: map<Id, Session>, id: Id) { id in all && Terminal(all[id].status) }

  predicate Registered(all: map<Id, Session>, order: seq<Id>) {
    (forall id :: id in order ==> id in all) && forall i, j :: 0 <= i < j < |order| ==> order[i] != order[j]
  }

  function Finished(all: map<Id, Session>, order: seq<Id>): (ids: seq<Id>)
    ensures forall id :: id in ids <==> id in order && IsFinished(all, id)
  {
    if order == [] then []
    else
      var rest := Finished(all, order[..|order| - 1]);
      if IsFinished(all, order[|order| - 1]) then rest + [order[|order| - 1]] else rest
  }

  /** Where a stable sort puts `id`: after every session as old or older. */
  function Insert(all: map<Id, Session>, ids: seq<Id>, id: Id): (r: seq<Id>)
    ensures |r| == |ids| + 1
  {
    if ids == [] || AgeOf(all, ids[|ids| - 1]) <= AgeOf(all, id) then ids + [id]
    else Insert(all, ids[..|ids| - 1], id) + [ids[|ids| - 1]]
  }

  /** `terminated.sort(key=...)`. */
  function ByAge(all: map<Id, Session>, ids: seq<Id>): (r: seq<Id>)
    ensures |r| == |ids|
  {
    if ids == [] then [] else Insert(all, ByAge(all, ids[..|ids| - 1]), ids[|ids| - 1])
  }

  function Without(order: seq<Id>, dropped: seq<Id>): (r: seq<Id>)
    ensures forall id :: id in r <==> id in order && id !in dropped
  {
    if order == [] then []
    else
      var rest := Without(order[..|order| - 1], dropped);
      if order[|order| - 1] in dropped then rest else rest + [order[|order| - 1]]
  }

  /** The finished sessions that a prune drops. */
  function Dropped(all: map<Id, Session>, order: seq<Id>): seq<Id> {
    var finished := Finished(all, order);
    if |finished| <= MAX_RETAINED then [] else ByAge(all, finished)[..|finished| - MAX_RETAINED]
  }

  /** `_prune_terminated`. */
  function Prune(all: map<Id, Session>, order: seq<Id>): seq<Id> { Without(order, Dropped(all, order)) }

  // ---------------------------------------------------------------- steps

  predicate Conflict(r: Registry, serial: Serial) {
    serial in r.index && r.index[serial] in r.order && r.index[serial] in r.all && Active(r.all[r.index[serial]].status)
  }

  /** When a block can run at all. */
  predicate Enabled(r: Registry, e: Event) {
    match e
    case Claim(id, _, _, _) => id !in r.all
    case StartSucceeds(id) => id in r.all && r.all[id].starter.Preparing?
    case StartFails(id) => id in r.all && r.all[id].starter.Preparing?
    case StartAbandoned(id) => id in r.all && r.all[id].starter.Preparing?
    case RetireFailedStart(id, _) => id in r.all && r.all[id].starter.CleaningUp?
    case StopBegins(id) => id in r.order && id in r.all
    case StopEnds(id, _, _) => id in r.all && r.all[id].stoppers > 0
    case StopBreaks(id, _, _) => id in r.all && r.all[id].stoppers > 0
  }

  /** `_retire_session`, on a session whose state has just been written. */
  function Retire(r: Registry, id: Id, s: Session, now: real): Registry
  {
    var all := r.all[id := s.(stopped := if s.stopped.Some? && s.stopped.value != 0.0 then s.stopped else Some(now))];
    Registry(all, Prune(all, r.order), if s.serial in r.index && r.index[s.serial] == id then r.index - {s.serial}
             else r.index)
  }

  function NewSession(serial: Serial, virtual: bool, now: real): Session {
    Session(serial, if virtual then CreatingDisplay else Starting, now, None, Preparing, 0)
  }

  function Apply(r: Registry, e: Event): Registry
    requires Enabled(r, e)
  {
    match e
    case Claim(id, serial, virtual, now) =>
      if Conflict(r, serial) then r
      else Registry(r.all[id := NewSession(serial, virtual, now)], r.order + [id], r.index[serial := id])
    case StartSucceeds(id) => r.(all := r.all[id := r.all[id].(status := Running, starter := Gone)])
    case StartFails(id) => r.(all := r.all[id := r.all[id].(status := Failed, starter := CleaningUp)])
    case StartAbandoned(id) => r.(all := r.all[id := r.all[id].(starter := Gone)])
    case RetireFailedStart(id, now) => Retire(r, id, r.all[id].(starter := Gone), now)
    case StopBegins(id) =>
      if Terminal(r.all[id].status) || r.all[id].status.Stopping? then r
      else r.(all := r.all[id := r.all[id].(status := Stopping, stoppers := r.all[id].stoppers + 1)])
    case StopEnds(id, lost, now) =>
      Retire(r, id, r.all[id].(status := if lost then Disconnected
                               else Stopped, stopped := Some(now), stoppers := r.all[id].stoppers - 1), now)
    case StopBreaks(id, watched, now) =>
      var s := r.all[id].(stoppers := r.all[id].stoppers - 1);
      if watched then Retire(r, id, s.(status := Failed), now) else r.(all := r.all[id := s])
  }
}
