/** The authentication service itself: fields updated in place, refining the store of `AuthModel`.

    Every clock reading, salt, identifier and token is a parameter. Each method runs under the service's
    one lock, so it is a single step of the store. */
module Authentication {
  import opened Wrappers
  import opened Lockout
  import opened AuthModel

  class AuthService {
    var pin: Option<PinRecord>
    var sessions: seq<Session>
    var attempts: Table

    function View(): Store
      reads this
    {
      Store(pin, sessions, attempts)
    }

    constructor ()
      ensures View() == Store(None, [], map[])
    {
      pin, sessions, attempts := None, [], map[];
    }

    /** `_cleanup_expired`. */
    method CleanupExpired(now: real) returns (changed: bool)
      modifies this`sessions
      ensures sessions == Clean(old(sessions), now)
      ensures changed <==>
        exists i :: 0 <= i < |old(sessions)| && old(sessions)[i].revoked.None? && Expires(old(sessions)[i], now)
    {
      changed := false;
      ghost var before := sessions;
      var i := 0;
      while i < |sessions|
        invariant 0 <= i <= |sessions| == |before|
        invariant forall j :: 0 <= j < i ==> sessions[j] == CleanOne(before[j], now)
        invariant forall j :: i <= j < |before| ==> sessions[j] == before[j]
        invariant changed <==> exists j :: 0 <= j < i && before[j].revoked.None? && Expires(before[j], now)
      {
        if sessions[i].revoked.None? && Expires(sessions[i], now) {
          sessions := sessions[i := sessions[i].(revoked := Some(now), reason := Some(Expired))];
          changed := true;
        }
        i := i + 1;
      }
    }

    /** `authenticate`: the answer is given at the first session with the token's hash. */
    method Authenticate(token: Option<Token>, now: real, swept: real, touch: bool) returns (answer: Option<Session>)
      modifies this`sessions
      ensures View() == Apply(old(View()), Call.Authenticate(token, swept, touch), now)
      ensures answer == Authenticated(old(sessions), token, now, swept, touch)
    {
      if token.None? { return None; }
      var changed := CleanupExpired(swept);
      var digest := Sha256(token.value);
      ghost var clean := sessions;
      var i := 0;
      while i < |sessions|
        invariant 0 <= i <= |sessions| && sessions == clean
        invariant forall j :: 0 <= j < i ==> sessions[j].hash != digest
      {
        if sessions[i].hash == digest {
          assert Find(clean, ByHash(digest)) == i;
          if sessions[i].revoked.Some? || Expires(sessions[i], now) { return None; }
          if touch && now - sessions[i].lastSeen >= 60.0 {
            sessions := sessions[i := sessions[i].(lastSeen := now)];
          }
          return Some(sessions[i]);
        }
        i := i + 1;
      }
      assert Find(clean, ByHash(digest)) == |clean|;
      return None;
    }

    /** `_find_session`. */
    method FindSession(id: nat) returns (i: nat)
      ensures i == Find(sessions, ById(id))
    {
      i := 0;
      while i < |sessions|
        invariant i <= |sessions|
        invariant forall j :: 0 <= j < i ==> sessions[j].id != id
      {
        if sessions[i].id == id { return; }
        i := i + 1;
      }
    }

    method Logout(id: nat, now: real)
      modifies this`sessions
      ensures View() == Apply(old(View()), Call.Logout(id), now)
    {
      var i := FindSession(id);
      if i < |sessions| { sessions := sessions[i := sessions[i].(revoked := Some(now), reason := Some(LoggedOut))]; }
    }

    method Revoke(id: nat, now: real) returns (revoked: bool)
      modifies this`sessions
      ensures View() == Apply(old(View()), Call.Revoke(id), now)
      ensures revoked <==> sessions != old(sessions)
    {
      var i := FindSession(id);
      if i == |sessions| || sessions[i].revoked.Some? { return false; }
      assert sessions[i].revoked != Some(now);
      sessions := sessions[i := sessions[i].(revoked := Some(now), reason := Some(Individual))];
      return true;
    }

    /** The loop of `revoke_all`, `revoke_all_for_reason` and `change_pin`. */
    method RevokeSessions(now: real, reason: Reason) returns (count: nat)
      modifies this`sessions
      ensures sessions == RevokeEvery(old(sessions), now, reason)
      ensures count == |set i | 0 <= i < |old(sessions)| && old(sessions)[i].revoked.None?|
    {
      count := 0;
      ghost var before := sessions;
      ghost var living: set<int> := {};
      var i := 0;
      while i < |sessions|
        invariant 0 <= i <= |sessions| == |before|
        invariant forall j :: 0 <= j < i ==> sessions[j] == RevokeOne(before[j], now, reason)
        invariant forall j :: i <= j < |before| ==> sessions[j] == before[j]
        invariant forall j :: j in living <==> 0 <= j < i && before[j].revoked.None?
        invariant count == |living|
      {
        if sessions[i].revoked.None? {
          sessions := sessions[i := sessions[i].(revoked := Some(now), reason := Some(reason))];
          count := count + 1;
          living := living + {i};
        }
        i := i + 1;
      }
      assert living == set j | 0 <= j < |before| && before[j].revoked.None?;
    }

    /** `_check_lockout`. */
    method CheckLockout(key: ClientKey, now: real) returns (refusal: Option<Refusal>)
      modifies this`attempts
      ensures Locked(old(attempts), key, now) ==>
                attempts == old(attempts) && refusal == Some(RateLimited(RetryAfter(attempts[key].lockedUntil - now)))
      ensures !Locked(old(attempts), key, now) ==> attempts == Checked(old(attempts), key, now) && refusal == None
    {
      if key !in attempts { return None; }
      var state := attempts[key];
      if state.lockedUntil > now {
        return Some(RateLimited(RetryAfter(state.lockedUntil - now)));
      }
      if now - state.firstFailure > WINDOW { attempts := attempts - {key}; }
      return None;
    }

    /** `_record_failure`. */
    method RecordFailure(key: ClientKey, now: real) returns (lock: Option<nat>)
      modifies this`attempts
      ensures attempts == Recorded(old(attempts), key, now)
      ensures lock.Some? <==> attempts[key].failures >= 5
      ensures lock.Some? ==> attempts[key].lockedUntil == now + lock.value as real
    {
      var state := if key in attempts then attempts[key] else Attempts(0, 0.0, 0.0);
      if state.failures == 0 || now - state.firstFailure > WINDOW {
        state := state.(failures := 0, firstFailure := now);
      }
      state := state.(failures := state.failures + 1);
      lock := None;
      if state.failures >= 5 {
        lock := Some(LockSeconds(state.failures));
        state := state.(lockedUntil := now + lock.value as real);
      }
      attempts := attempts[key := state];
    }

    /** `_verify_pin_guarded`; `Some` carries the refusal. */
    method VerifyPinGuarded(candidate: string, guard: Option<ClientKey>, checked: real, recorded: real)
      returns (refusal: Option<Refusal>)
      modifies this`attempts
      ensures (refusal, attempts) == Guarded(old(View()), candidate, guard, checked, recorded)
    {
      if guard.None? {
        return if VerifyPin(View(), candidate) then None else Some(WrongPin);
      }
      refusal := CheckLockout(guard.value, checked);
      if refusal.Some? { return; }
      if VerifyPin(View(), candidate) {
        attempts := attempts - {guard.value};
        return None;
      }
      var _ := RecordFailure(guard.value, recorded);
      return Some(WrongPin);
    }

    /** `_create_session`. */
    method CreateSession(duration: Duration, id: nat, token: Token, now: real) returns (refusal: Option<Refusal>)
      modifies this`sessions
      ensures refusal == if ResolveDuration(duration).None? then Some(DurationInvalid) else None
      ensures sessions == if refusal.Some? then old(sessions)
              else old(sessions) + [NewSession(id, token, now, ResolveDuration(duration).value.0)]
    {
      var life := ResolveDuration(duration);
      if life.None? { return Some(DurationInvalid); }
      sessions := sessions + [NewSession(id, token, now, life.value.0)];
      return None;
    }

    /** `setup`: a failure after the PIN was written restores the state the call found. */
    method Setup(newPin: string, salt: nat, duration: Duration, id: nat, token: Token, now: real, persisted: bool)
      returns (r: Result<Token, Refusal>)
      modifies this`pin, this`sessions
      ensures View() == Apply(old(View()), Call.Setup(newPin, salt, duration, id, token, persisted), now)
      ensures r.Ok? <==> Granted(old(View()), Call.Setup(newPin, salt, duration, id, token, persisted)).Some?
      ensures r == match SetupResult(old(View()), newPin, duration, persisted) case Some(refusal) => Err(refusal)
              case None => Ok(token)
      ensures r.Err? ==> View() == old(View())
    {
      if pin.Some? { return Err(AlreadyConfigured); }
      if !ValidPin(newPin) { return Err(PinInvalid); }
      var pinBefore, sessionsBefore := pin, sessions;
      pin := Some(Pbkdf2(salt, newPin));
      var failure := CreateSession(duration, id, token, now);
      if failure.None? && !persisted { failure := Some(NotPersisted); }
      if failure.Some? {
        pin, sessions := pinBefore, sessionsBefore;
        return Err(failure.value);
      }
      return Ok(token);
    }

    method Login(candidate: string, duration: Duration, key: ClientKey, checked: real, recorded: real, id: nat,
                 token: Token, now: real)
      returns (r: Result<Token, Refusal>)
      modifies this`sessions, this`attempts
      ensures View() == Apply(old(View()), Call.Login(candidate, duration, key, checked, recorded, id, token), now)
      ensures r == match LoginResult(old(View()), candidate, duration, key, checked, recorded)
              case Some(refusal) => Err(refusal) case None => Ok(token)
    {
      if pin.None? { return Err(NotConfigured); }
      var refusal := VerifyPinGuarded(candidate, Some(key), checked, recorded);
      if refusal.Some? { return Err(refusal.value); }
      refusal := CreateSession(duration, id, token, now);
      if refusal.Some? { return Err(refusal.value); }
      return Ok(token);
    }

    method RevokeAll(candidate: string, guard: Option<ClientKey>, checked: real, recorded: real, now: real)
      returns (r: Result<nat, Refusal>)
      modifies this`sessions, this`attempts
      ensures View() == Apply(old(View()), Call.RevokeAll(candidate, guard, checked, recorded), now)
      ensures r.Err? <==> Guarded(old(View()), candidate, guard, checked, recorded).0.Some?
      ensures r.Ok? ==> r.value == |set i | 0 <= i < |old(sessions)| && old(sessions)[i].revoked.None?|
    {
      var refusal := VerifyPinGuarded(candidate, guard, checked, recorded);
      if refusal.Some? { return Err(refusal.value); }
      var count := RevokeSessions(now, Global);
      return Ok(count);
    }

    method ChangePin(current: string, replacement: string, salt: nat, guard: Option<ClientKey>, checked: real,
                     recorded: real, now: real)
      returns (refusal: Option<Refusal>)
      modifies this
      ensures View() == Apply(old(View()), Call.ChangePin(current, replacement, salt, guard, checked, recorded), now)
      ensures refusal == ChangeResult(old(View()), current, replacement, guard, checked, recorded)
    {
      refusal := VerifyPinGuarded(current, guard, checked, recorded);
      if refusal.Some? { return; }
      if !ValidPin(replacement) { return Some(PinInvalid); }
      pin := Some(Pbkdf2(salt, replacement));
      var _ := RevokeSessions(now, PinChanged);
    }

    method Reset()
      modifies this`pin, this`sessions
      ensures forall now :: View() == Apply(old(View()), Call.Reset, now)
    {
      pin, sessions := None, [];
    }
  }
}
