/** The session store of the authentication service: what each call does to it, and why a refused
    token stays refused.

    Digests are idealised as injective, so a stored hash names one token; tokens are random, so a new
    one differs from every token issued before. */
module AuthModel {
  import opened Wrappers
  import opened Lockout

  type Token = nat

  datatype Digest = Sha256(token: Token)

  datatype PinRecord = Pbkdf2(salt: nat, pin: string)

  datatype Reason = Expired | LoggedOut | Individual | Global | PinChanged

  datatype Session = Session(
    id: nat, hash: Digest, created: real, lastSeen: real, expires: Option<real>,
    revoked: Option<real>, reason: Option<Reason>)

  datatype Store = Store(pin: Option<PinRecord>, sessions: seq<Session>, attempts: Table)

  datatype Refusal =
    | AlreadyConfigured | NotConfigured | PinInvalid | DurationInvalid | WrongPin | RateLimited(retryAfter: nat)
    | NotPersisted

  datatype Duration =
    | BrowserSession | OneHour | OneDay | OneWeek | OneMonth | OneYear | Forever | Custom(seconds: Option<int>)
    | Unknown

  const DAY := 24 * 60 * 60
  const CUSTOM_MIN := 5 * 60
  const CUSTOM_MAX := 10 * 365 * DAY

  /** The life of a session in seconds (`None`: for ever) and the age of its cookie. */
  function ResolveDuration(d: Duration): Option<(Option<int>, Option<int>)> {
    match d
    case Custom(seconds) =>
      if seconds.Some? && CUSTOM_MIN <= seconds.value <= CUSTOM_MAX then Some((seconds, seconds)) else None
    case Unknown => None
    case BrowserSession => Some((Some(DAY), None))
    case OneHour => Some((Some(3600), Some(3600)))
    case OneDay => Some((Some(DAY), Some(DAY)))
    case OneWeek => Some((Some(7 * DAY), Some(7 * DAY)))
    case OneMonth => Some((Some(30 * DAY), Some(30 * DAY)))
    case OneYear => Some((Some(365 * DAY), Some(365 * DAY)))
    case Forever => Some((None, Some(CUSTOM_MAX)))
  }

  predicate ValidPin(pin: string) { 4 <= |pin| <= 12 && forall i :: 0 <= i < |pin| ==> '0' <= pin[i] <= '9' }

  predicate VerifyPin(store: Store, pin: string) { store.pin.Some? && store.pin.value.pin == pin }

  // ---------------------------------------------------------------- sessions

  predicate Expires(s: Session, now: real) { s.expires.Some? && now >= s.expires.value }

  /** `_cleanup_expired` on one session. */
  function CleanOne(s: Session, now: real): Session {
    if s.revoked.None? && Expires(s, now) then s.(revoked := Some(now), reason := Some(Expired)) else s
  }

  function Clean(sessions: seq<Session>, now: real): (r: seq<Session>)
    ensures |r| == |sessions|
  {
    seq(|sessions|, i requires 0 <= i < |sessions| => CleanOne(sessions[i], now))
  }

  function RevokeOne(s: Session, now: real, reason: Reason): Session {
    if s.revoked.None? then s.(revoked := Some(now), reason := Some(reason)) else s
  }

  function RevokeEvery(sessions: seq<Session>, now: real, reason: Reason): (r: seq<Session>)
    ensures |r| == |sessions|
  {
    seq(|sessions|, i requires 0 <= i < |sessions| => RevokeOne(sessions[i], now, reason))
  }

  /** What a session is looked up by. */
  datatype Key = ByHash(digest: Digest) | ById(sought: nat)

  predicate Has(s: Session, key: Key) {
    match key
    case ByHash(digest) => s.hash == digest
    case ById(sought) => s.id == sought
  }

  /** The first session with that key. */
  function Find(sessions: seq<Session>, key: Key): (i: nat)
    ensures i <= |sessions|
    ensures i < |sessions| ==> Has(sessions[i], key)
    ensures forall j :: 0 <= j < i ==> !Has(sessions[j], key)
  {
    if sessions == [] then 0
    else if Has(sessions[0], key) then 0
    else 1 + Find(sessions[1..], key)
  }

  function Touch(s: Session, now: real): Session {
    if now - s.lastSeen >= 60.0 then s.(lastSeen := now) else s
  }

  predicate Refuses(s: Session, now: real) { s.revoked.Some? || Expires(s, now) }

  /** The sessions after `authenticate`: the clock is read before the store is locked (`now`) and
      again when expired sessions are swept (`swept`). */
  function AfterAuthenticate(sessions: seq<Session>, token: Option<Token>, now: real, swept: real,
                             touch: bool): seq<Session> {
    if token.None? then sessions
    else
      var clean := Clean(sessions, swept);
      var i := Find(clean, ByHash(Sha256(token.value)));
      if i == |clean| || Refuses(clean[i], now) || !touch then clean else clean[i := Touch(clean[i], now)]
  }

  /** The session `authenticate` answers with. */
  function Authenticated(sessions: seq<Session>, token: Option<Token>, now: real, swept: real,
                         touch: bool): Option<Session> {
    if token.None? then None
    else
      var clean := Clean(sessions, swept);
      var i := Find(clean, ByHash(Sha256(token.value)));
      if i == |clean| || Refuses(clean[i], now) then None
      else Some(if touch then Touch(clean[i], now) else clean[i])
  }

  function NewSession(id: nat, token: Token, now: real, seconds: Option<int>): Session {
    Session(id, Sha256(token), now, now, if seconds.None? then None else Some(now + seconds.value as real), None, None)
  }

  // ---------------------------------------------------------------- calls

  datatype Call =
    | Setup(pin: string, salt: nat, duration: Duration, id: nat, token: Token, persisted: bool)
    | Login(pin: string, duration: Duration, key: ClientKey, checked: real, recorded: real, id: nat, token: Token)
    | Authenticate(presented: Option<Token>, swept: real, touch: bool)
    | Logout(id: nat)
    | Revoke(id: nat)
    | RevokeAll(pin: string, guard: Option<ClientKey>, checked: real, recorded: real)
    | ChangePin(current: string, replacement: string, salt: nat, guard: Option<ClientKey>, checked: real,
                recorded: real)
    | ListSessions
    | Reset

  /** `_verify_pin_guarded`: the lockout protects the check whenever a client is named. */
  function Guarded(store: Store, pin: string, guard: Option<ClientKey>, checked: real,
                   recorded: real): (Option<Refusal>, Table) {
    if guard.None? then (if VerifyPin(store, pin) then None else Some(WrongPin), store.attempts)
    else
      var a := Attempt(guard.value, VerifyPin(store, pin), checked, recorded);
      (if !Admitted(store.attempts, a) then Some(RateLimited(RetryAfter(store.attempts[a.key].lockedUntil - checked)))
       else if a.correct then None else Some(WrongPin),
       After(store.attempts, a))
  }

  function SetupResult(store: Store, pin: string, duration: Duration, persisted: bool): Option<Refusal> {
    if store.pin.Some? then Some(AlreadyConfigured)
    else if !ValidPin(pin) then Some(PinInvalid)
    else if ResolveDuration(duration).None? then Some(DurationInvalid)
    else if !persisted then Some(NotPersisted)
    else None
  }

  function LoginResult(store: Store, pin: string, duration: Duration, key: ClientKey, checked: real,
                       recorded: real): Option<Refusal> {
    var guarded := Guarded(store, pin, Some(key), checked, recorded).0;
    if store.pin.None? then Some(NotConfigured)
    else if guarded.Some? then guarded
    else if ResolveDuration(duration).None? then Some(DurationInvalid)
    else None
  }

  function ChangeResult(store: Store, current: string, replacement: string, guard: Option<ClientKey>, checked: real,
                        recorded: real): Option<Refusal> {
    var guarded := Guarded(store, current, guard, checked, recorded).0;
    if guarded.Some? then guarded else if !ValidPin(replacement) then Some(PinInvalid) else None
  }

  /** The sessions after a call at time `now`. */
  function Sessions(store: Store, call: Call, now: real): seq<Session> {
    match call
    case Setup(pin, salt, duration, id, token, persisted) =>
      if SetupResult(store, pin, duration, persisted).Some? then store.sessions
      else store.sessions + [NewSession(id, token, now, ResolveDuration(duration).value.0)]
    case Login(pin, duration, key, checked, recorded, id, token) =>
      if LoginResult(store, pin, duration, key, checked, recorded).Some? then store.sessions
      else store.sessions + [NewSession(id, token, now, ResolveDuration(duration).value.0)]
    case Authenticate(presented, swept, touch) => AfterAuthenticate(store.sessions, presented, now, swept, touch)
    case Logout(id) =>
      var i := Find(store.sessions, ById(id));
      if i == |store.sessions| then store.sessions
      else store.sessions[i := store.sessions[i].(revoked := Some(now), reason := Some(LoggedOut))]
    case Revoke(id) =>
      var i := Find(store.sessions, ById(id));
      if i == |store.sessions| then store.sessions
      else store.sessions[i := RevokeOne(store.sessions[i], now, Individual)]
    case RevokeAll(pin, guard, checked, recorded) =>
      if Guarded(store, pin, guard, checked, recorded).0.Some? then store.sessions
      else RevokeEvery(store.sessions, now, Global)
    case ChangePin(current, replacement, salt, guard, checked, recorded) =>
      if ChangeResult(store, current, replacement, guard, checked, recorded).Some? then store.sessions
      else RevokeEvery(store.sessions, now, PinChanged)
    case ListSessions => Clean(store.sessions, now)
    case Reset => []
  }

  function Pin(store: Store, call: Call): Option<PinRecord> {
    match call
    case Setup(pin, salt, duration, _, _, persisted) =>
      if SetupResult(store, pin, duration, persisted).Some? then store.pin else Some(Pbkdf2(salt, pin))
    case ChangePin(current, replacement, salt, guard, checked, recorded) =>
      if ChangeResult(store, current, replacement, guard, checked, recorded).Some? then store.pin
      else Some(Pbkdf2(salt, replacement))
    case Reset => None
    case _ => store.pin
  }

  function AttemptsAfter(store: Store, call: Call): Table {
    match call
    case Login(pin, _, key, checked, recorded, _, _) =>
      if store.pin.None? then store.attempts else Guarded(store, pin, Some(key), checked, recorded).1
    case RevokeAll(pin, guard, checked, recorded) => Guarded(store, pin, guard, checked, recorded).1
    case ChangePin(current, _, _, guard, checked, recorded) => Guarded(store, current, guard, checked, recorded).1
    case _ => store.attempts
  }

  function Apply(store: Store, call: Call, now: real): Store {
    Store(Pin(store, call), Sessions(store, call, now), AttemptsAfter(store, call))
  }

  /** The token a call hands out. */
  function Granted(store: Store, call: Call): Option<Token> {
    match call
    case Setup(pin, _, duration, _, token, persisted) =>
      if SetupResult(store, pin, duration, persisted).Some? then None else Some(token)
    case Login(pin, duration, key, checked, recorded, _, token) =>
      if LoginResult(store, pin, duration, key, checked, recorded).Some? then None else Some(token)
    case _ => None
  }
}
