/** Session tokens over whole runs: who is let in, and that nobody refused comes back. */
module SessionTokens {
  import opened Wrappers
  import opened Lockout
  import opened AuthModel

  /** Every stored hash is that of a token handed out, and no two sessions share one. */
  ghost predicate Sound(sessions: seq<Session>, issued: set<Token>) {
    && (forall i :: 0 <= i < |sessions| ==> sessions[i].hash.token in issued)
    && (forall i, j :: 0 <= i < j < |sessions| ==> sessions[i].hash != sessions[j].hash)
  }

  /** No session still honours the token. */
  ghost predicate Dead(sessions: seq<Session>, token: Token) {
    forall i :: 0 <= i < |sessions| && sessions[i].hash == Sha256(token) ==> sessions[i].revoked.Some?
  }

  /** A session may only age, be touched and be revoked. */
  ghost predicate Older(s: Session, s': Session) {
    s'.hash == s.hash && s'.expires == s.expires && (s.revoked.Some? ==> s'.revoked.Some?)
  }

  ghost predicate AllOlder(a: seq<Session>, b: seq<Session>) {
    |a| <= |b| && forall i :: 0 <= i < |a| ==> Older(a[i], b[i])
  }

  // ---------------------------------------------------------------- one call

  /** `authenticate` lets in exactly the tokens of an unrevoked session that neither clock reading finds
      expired, and answers with that session. */
  lemma LetInExactlyTheLiving(sessions: seq<Session>, issued: set<Token>, token: Token, now: real, swept: real,
                              touch: bool)
    requires Sound(sessions, issued)
    ensures Authenticated(sessions, Some(token), now, swept, touch).Some? <==>
            exists i :: 0 <= i < |sessions| && sessions[i].hash == Sha256(token) && sessions[i].revoked.None?
                        && !Expires(sessions[i], now) && !Expires(sessions[i], swept)
    ensures var r := Authenticated(sessions, Some(token), now, swept, touch);
            r.Some? ==>
              token in issued && r.value.hash == Sha256(token) && r.value.revoked.None? && !Expires(r.value, now)
  {
    var clean := Clean(sessions, swept);
    var i := Find(clean, ByHash(Sha256(token)));
    if i < |clean| {
      assert clean[i] == CleanOne(sessions[i], swept);
      assert sessions[i].hash == Sha256(token);
    } else {
      forall j | 0 <= j < |sessions| ensures sessions[j].hash != Sha256(token) {
        assert clean[j] == CleanOne(sessions[j], swept);
      }
    }
  }

  /** A refusal for expiry or revocation leaves every session of the token revoked. */
  lemma RefusalIsRecorded(sessions: seq<Session>, issued: set<Token>, token: Token, now: real, swept: real, touch: bool)
    requires Sound(sessions, issued) && now <= swept
    requires Authenticated(sessions, Some(token), now, swept, touch).None?
    ensures Dead(AfterAuthenticate(sessions, Some(token), now, swept, touch), token)
  {
    var clean := Clean(sessions, swept);
    var i := Find(clean, ByHash(Sha256(token)));
    forall j | 0 <= j < |clean| && clean[j].hash == Sha256(token) ensures clean[j].revoked.Some? {
      assert clean[j] == CleanOne(sessions[j], swept) && clean[i] == CleanOne(sessions[i], swept);
      assert i == j;
    }
  }

  lemma CallsOnlyAgeSessions(store: Store, call: Call, now: real)
    ensures call.Reset? || AllOlder(store.sessions, Sessions(store, call, now))
    ensures |Sessions(store, call, now)| <= |store.sessions| + 1
    ensures |Sessions(store, call, now)| == |store.sessions| + 1 ==>
              Granted(store, call).Some?
                && Sessions(store, call, now)[|store.sessions|].hash == Sha256(Granted(store, call).value)
    ensures Granted(store, call).Some? ==> |Sessions(store, call, now)| == |store.sessions| + 1
  {
  }

  /** Changing the PIN, or revoking all with it, ends every session there is. */
  lemma EverySessionEnds(store: Store, call: Call, now: real, token: Token)
    requires call.ChangePin? || call.RevokeAll?
    requires AttemptSucceeds(store, call)
    ensures Dead(Sessions(store, call, now), token)
  {
  }

  predicate AttemptSucceeds(store: Store, call: Call)
    requires call.ChangePin? || call.RevokeAll?
  {
    if call.ChangePin? then ChangeResult(store, call.current, call.replacement, call.guard, call.checked,
                                         call.recorded).None?
    else Guarded(store, call.pin, call.guard, call.checked, call.recorded).0.None?
  }

  /** A setup that fails, for whatever reason, leaves the store exactly as it was. */
  lemma FailedSetupChangesNothing(store: Store, call: Call, now: real)
    requires call.Setup? && SetupResult(store, call.pin, call.duration, call.persisted).Some?
    ensures Apply(store, call, now) == store && Granted(store, call).None?
  {
  }

  /** A setup that succeeds makes its PIN, and no other, the one that verifies. */
  lemma SetupFixesThePin(store: Store, call: Call, now: real, pin: string)
    requires call.Setup? && SetupResult(store, call.pin, call.duration, call.persisted).None?
    ensures VerifyPin(Apply(store, call, now), pin) <==> pin == call.pin
    ensures store.pin.None? && ValidPin(call.pin)
  {
  }

  // ---------------------------------------------------------------- whole runs

  /** A call with the time it is made at. */
  datatype Timed = Timed(call: Call, at: real)

  function Execute(store: Store, calls: seq<Timed>): Store
    decreases |calls|
  {
    if calls == [] then store else Execute(Apply(store, calls[0].call, calls[0].at), calls[1..])
  }

  function Issued(store: Store, calls: seq<Timed>, issued: set<Token>): set<Token>
    decreases |calls|
  {
    if calls == [] then issued
    else
      var granted := Granted(store, calls[0].call);
      Issued(Apply(store, calls[0].call, calls[0].at), calls[1..], if granted.Some? then issued + {granted.value}
             else issued)
  }

  /** Tokens handed out are new. */
  ghost predicate FreshTokens(store: Store, calls: seq<Timed>, issued: set<Token>)
    decreases |calls|
  {
    if calls == [] then true
    else
      var granted := Granted(store, calls[0].call);
      && (granted.Some? ==> granted.value !in issued)
      && FreshTokens(Apply(store, calls[0].call, calls[0].at), calls[1..],
                     if granted.Some? then issued + {granted.value} else issued)
  }

  lemma CallKeepsSound(store: Store, call: Call, now: real, issued: set<Token>)
    requires Sound(store.sessions, issued) && (Granted(store, call).Some? ==> Granted(store, call).value !in issued)
    ensures Sound(Sessions(store, call, now), if Granted(store, call).Some? then issued + {Granted(store, call).value}
                  else issued)
  {
    CallsOnlyAgeSessions(store, call, now);
  }

  lemma CallKeepsDead(store: Store, call: Call, now: real, token: Token)
    requires Dead(store.sessions, token) && Granted(store, call) != Some(token)
    ensures Dead(Sessions(store, call, now), token)
  {
    CallsOnlyAgeSessions(store, call, now);
  }

  lemma {:induction false} RunKeepsSound(store: Store, calls: seq<Timed>, issued: set<Token>)
    requires Sound(store.sessions, issued) && FreshTokens(store, calls, issued)
    ensures Sound(Execute(store, calls).sessions, Issued(store, calls, issued))
    decreases |calls|
  {
    if calls != [] {
      var call, now := calls[0].call, calls[0].at;
      var granted := Granted(store, call);
      CallKeepsSound(store, call, now, issued);
      RunKeepsSound(Apply(store, call, now), calls[1..], if granted.Some? then issued + {granted.value} else issued);
    }
  }

  /** Over every run, a token that is dead and was issued before stays refused, at any time and
      whatever is called in between: signing in again hands out another token. */
  lemma {:induction false} DeadStaysDead(store: Store, calls: seq<Timed>, issued: set<Token>, token: Token)
    requires Dead(store.sessions, token) && token in issued && FreshTokens(store, calls, issued)
    ensures Dead(Execute(store, calls).sessions, token)
    ensures forall now, swept, touch ::
            Authenticated(Execute(store, calls).sessions, Some(token), now, swept, touch).None?
    decreases |calls|
  {
    if calls == [] {
      forall now, swept, touch ensures Authenticated(store.sessions, Some(token), now, swept, touch).None? {
        var clean := Clean(store.sessions, swept);
        var i := Find(clean, ByHash(Sha256(token)));
        if i < |clean| { assert clean[i] == CleanOne(store.sessions[i], swept); }
      }
    } else {
      var call, now := calls[0].call, calls[0].at;
      var granted := Granted(store, call);
      CallKeepsDead(store, call, now, token);
      DeadStaysDead(Apply(store, call, now), calls[1..], if granted.Some? then issued + {granted.value}
                    else issued, token);
    }
  }

  /** A token `authenticate` refuses once is refused ever after. */
  lemma RefusedOnceRefusedForEver(store: Store, token: Token, now: real, swept: real, touch: bool, calls: seq<Timed>,
                                  issued: set<Token>)
    requires Sound(store.sessions, issued) && token in issued && now <= swept
    requires Authenticated(store.sessions, Some(token), now, swept, touch).None?
    requires var store' := Apply(store, Authenticate(Some(token), swept, touch), now);
             FreshTokens(store', calls, issued)
    ensures var store' := Apply(store, Authenticate(Some(token), swept, touch), now);
            forall later, swept', touch' ::
              Authenticated(Execute(store', calls).sessions, Some(token), later, swept', touch').None?
  {
    RefusalIsRecorded(store.sessions, issued, token, now, swept, touch);
    DeadStaysDead(Apply(store, Authenticate(Some(token), swept, touch), now), calls, issued, token);
  }

  /** After a PIN change, or a revocation of all sessions, no token issued before is ever accepted. */
  lemma EarlierTokensAreRefused(store: Store, call: Call, now: real, calls: seq<Timed>, issued: set<Token>,
                                token: Token)
    requires (call.ChangePin? || call.RevokeAll?) && AttemptSucceeds(store, call)
    requires token in issued && FreshTokens(Apply(store, call, now), calls, issued)
    ensures forall later, swept, touch ::
              Authenticated(Execute(Apply(store, call, now), calls).sessions, Some(token), later, swept, touch).None?
  {
    EverySessionEnds(store, call, now, token);
    DeadStaysDead(Apply(store, call, now), calls, issued, token);
  }
}
