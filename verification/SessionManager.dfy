/** The session manager's blocks on its own fields, each refining one step of the registry, and the claim
    of a channel by a browser. */
module SessionManager {
  import opened Wrappers
  import opened SessionModel
  import opened SessionPruning

  class Manager {
    var all: map<Id, Session>
    var order: seq<Id>
    var index: map<Serial, Id>

    function View(): Registry
      reads this
    {
      Registry(all, order, index)
    }

    constructor ()
      ensures View() == Registry(map[], [], map[])
    {
      all, order, index := map[], [], map[];
    }

    /** `start_session` up to its first suspension after the lock. */
    method Claim(id: Id, serial: Serial, virtual: bool, now: real) returns (refused: bool)
      requires Registered(all, order) && Enabled(View(), Event.Claim(id, serial, virtual, now))
      modifies this
      ensures View() == Apply(old(View()), Event.Claim(id, serial, virtual, now))
      ensures refused <==> Conflict(old(View()), serial)
    {
      if serial in index {
        var existing := index[serial];
        if existing in order && Active(all[existing].status) { return true; }
      }
      all := all[id := NewSession(serial, virtual, now)];
      order := order + [id];
      index := index[serial := id];
      return false;
    }

    /** The unconditional write after the resources are ready. */
    method FinishStart(id: Id)
      requires Enabled(View(), StartSucceeds(id))
      modifies this`all
      ensures View() == Apply(old(View()), StartSucceeds(id))
    {
      all := all[id := all[id].(status := Running, starter := Gone)];
    }

    method FailStart(id: Id)
      requires Enabled(View(), StartFails(id))
      modifies this`all
      ensures View() == Apply(old(View()), StartFails(id))
    {
      all := all[id := all[id].(status := Failed, starter := CleaningUp)];
    }

    method RetireFailed(id: Id, now: real)
      requires Enabled(View(), RetireFailedStart(id, now))
      modifies this
      ensures View() == Apply(old(View()), RetireFailedStart(id, now))
    {
      RetireAfterWrite(View(), id, all[id].(starter := Gone), now);
      all := all[id := all[id].(starter := Gone)];
      RetireSession(id, now);
    }

    /** `stop_session` before the cleanup; `begun` says that there is one to wait for. */
    method BeginStop(id: Id) returns (found: bool, begun: bool)
      requires Registered(all, order)
      modifies this`all
      ensures found <==> id in order
      ensures View() == if found then Apply(old(View()), StopBegins(id)) else old(View())
      ensures begun <==> found && !Terminal(old(all)[id].status) && !old(all)[id].status.Stopping?
    {
      if id !in order { return false, false; }
      var s := all[id];
      if s.status.Stopping? || Terminal(s.status) { return true, false; }
      all := all[id := s.(status := Stopping, stoppers := s.stoppers + 1)];
      return true, true;
    }

    /** `stop_session` after the cleanup. */
    method EndStop(id: Id, lost: bool, now: real)
      requires Enabled(View(), StopEnds(id, lost, now))
      modifies this
      ensures View() == Apply(old(View()), StopEnds(id, lost, now))
    {
      var s := all[id].(status := if lost then Disconnected
                        else Stopped, stopped := Some(now), stoppers := all[id].stoppers - 1);
      RetireAfterWrite(View(), id, s, now);
      all := all[id := s];
      RetireSession(id, now);
    }

    /** `_retire_session`. */
    method RetireSession(id: Id, now: real)
      requires id in all
      modifies this
      ensures View() == Retire(old(View()), id, old(all)[id], now)
    {
      var s := all[id];
      if s.stopped.None? || s.stopped.value == 0.0 { all := all[id := s.(stopped := Some(now))]; }
      if s.serial in index && index[s.serial] == id { index := index - {s.serial}; }
      assert all == old(all)[id := all[id]];
      PruneTerminated();
    }

    /** `_prune_terminated`. */
    method PruneTerminated()
      modifies this`order
      ensures order == Prune(all, old(order))
    {
      var terminated := Terminated();
      WithoutNone(order);
      if |terminated| <= MAX_RETAINED { return; }
      var excess := |terminated| - MAX_RETAINED;
      terminated := ByAge(all, terminated);
      Drop(terminated[..excess]);
    }

    method Terminated() returns (terminated: seq<Id>)
      ensures terminated == Finished(all, order)
    {
      terminated := [];
      for i := 0 to |order|
        invariant terminated == Finished(all, order[..i])
      {
        assert order[..i + 1][..i] == order[..i];
        if IsFinished(all, order[i]) { terminated := terminated + [order[i]]; }
      }
      assert order[..|order|] == order;
    }

    method Drop(dropped: seq<Id>)
      modifies this`order
      ensures order == Without(old(order), dropped)
    {
      WithoutNone(order);
      assert dropped[..0] == [];
      for i := 0 to |dropped|
        invariant order == Without(old(order), dropped[..i])
      {
        WithoutAlso(old(order), dropped[..i], dropped[i]);
        assert dropped[..i + 1] == dropped[..i] + [dropped[i]];
        order := Without(order, [dropped[i]]);
      }
      assert dropped[..|dropped|] == dropped;
    }
  }

  lemma RetireAfterWrite(r: Registry, id: Id, s: Session, now: real)
    requires id in r.all
    ensures Retire(r.(all := r.all[id := s]), id, s, now) == Retire(r, id, s, now)
  {
    var s' := s.(stopped := if s.stopped.Some? && s.stopped.value != 0.0 then s.stopped else Some(now));
    assert r.all[id := s][id := s'] == r.all[id := s'];
  }

  lemma {:induction false} WithoutNone(order: seq<Id>)
    ensures Without(order, []) == order
  {
    if order != [] {
      WithoutNone(order[..|order| - 1]);
      assert order == order[..|order| - 1] + [order[|order| - 1]];
    }
  }

  lemma {:induction false} WithoutAlso(order: seq<Id>, dropped: seq<Id>, id: Id)
    ensures Without(Without(order, dropped), [id]) == Without(order, dropped + [id])
  {
    if order != [] {
      var init, last := order[..|order| - 1], order[|order| - 1];
      WithoutAlso(init, dropped, id);
      var kept := Without(init, dropped);
      assert (kept + [last])[..|kept|] == kept;
      assert last in dropped + [id] <==> last in dropped || last == id;
    }
  }

  // ---------------------------------------------------------------- channels

  datatype ChannelEvent = Attach(client: Id) | Detach(client: Id)

  /** `claim` and `release`: a channel carries one browser at a time. */
  class ScrcpyChannel {
    var attached: Option<Id>

    constructor ()
      ensures attached.None?
    {
      attached := None;
    }

    method Claim(client: Id) returns (refused: bool)
      modifies this
      ensures refused <==> old(attached).Some?
      ensures attached == After(old(attached), Attach(client))
    {
      if attached.Some? { return true; }
      attached := Some(client);
      return false;
    }

    method Release(client: Id)
      modifies this
      ensures attached == After(old(attached), Detach(client))
    {
      if attached == Some(client) { attached := None; }
    }
  }

  function After(attached: Option<Id>, e: ChannelEvent): Option<Id> {
    match e
    case Attach(client) => if attached.Some? then attached else Some(client)
    case Detach(client) => if attached == Some(client) then None else attached
  }

  function AfterAll(attached: Option<Id>, events: seq<ChannelEvent>): Option<Id> {
    if events == [] then attached else After(AfterAll(attached, events[..|events| - 1]), events[|events| - 1])
  }

  /** The holder of a channel keeps it until it detaches itself, whatever other browsers try. */
  lemma {:induction false} HolderStaysUntilItDetaches(client: Id, events: seq<ChannelEvent>)
    ensures Detach(client) !in events ==> AfterAll(Some(client), events) == Some(client)
  {
    if events != [] && Detach(client) !in events {
      HolderStaysUntilItDetaches(client, events[..|events| - 1]);
      assert events[|events| - 1] in events;
      assert forall e :: e in events[..|events| - 1] ==> e in events;
    }
  }
}
