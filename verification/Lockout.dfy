/** The PIN lockout: at most 8 wrong PINs a client key in one counting episode, and at most
    8 * (1 + floor(T / 300)) in any T seconds. */
module Lockout {
  import opened Wrappers

  datatype ClientKey = ClientKey(text: string)

  /** `_AttemptState`. */
  datatype Attempts = Attempts(failures: nat, firstFailure: real, lockedUntil: real)

  type Table = map<ClientKey, Attempts>

  const WINDOW := 300.0

  /** `min(300, 30 * 2 ** min(failures - 5, 3))`. */
  function LockSeconds(failures: nat): (seconds: nat)
    requires failures >= 5
  {
    Min(300, 30 * Power(Min(failures - 5, 3)))
  }

  /** The lock lasts 30, 60, 120 and from then on 240 seconds: the cap of 300 is never reached. */
  lemma LockDoubles(failures: nat)
    requires failures >= 5
    ensures LockSeconds(failures)
         == (if failures == 5 then 30 else if failures == 6 then 60 else if failures == 7 then 120 else 240)
  {
    assert Power(0) == 1 && Power(1) == 2 && Power(2) == 4 && Power(3) == 8;
  }

  predicate Locked(table: Table, key: ClientKey, now: real) { key in table && table[key].lockedUntil > now }

  /** `max(1, int(remaining + 0.999))`. */
  function RetryAfter(remaining: real): nat
    requires remaining > 0.0
  {
    var whole := (remaining + 0.999).Floor;
    if whole < 1 then 1 else whole
  }

  /** What `_check_lockout` leaves when it lets the client pass: an episode older than the window is over. */
  function Checked(table: Table, key: ClientKey, now: real): Table {
    if key in table && now - table[key].firstFailure > WINDOW then table - {key} else table
  }

  /** What `_record_failure` makes of the state of one client. */
  function Counted(before: Option<Attempts>, now: real): Attempts {
    var a := if before.Some? then before.value else Attempts(0, 0.0, 0.0);
    var anew := a.failures == 0 || now - a.firstFailure > WINDOW;
    var failures := if anew then 1 else a.failures + 1;
    Attempts(failures, if anew then now else a.firstFailure,
             if failures >= 5 then now + LockSeconds(failures) as real else a.lockedUntil)
  }

  function Recorded(table: Table, key: ClientKey, now: real): Table {
    table[key := Counted(if key in table then Some(table[key]) else None, now)]
  }

  /** One guarded PIN check: the lockout is looked at first, the failure recorded when hashing is done. */
  datatype Attempt = Attempt(key: ClientKey, correct: bool, checkedAt: real, recordedAt: real)

  /** The PIN of this attempt is actually compared. */
  predicate Admitted(table: Table, a: Attempt) { !Locked(table, a.key, a.checkedAt) }

  function After(table: Table, a: Attempt): Table {
    if !Admitted(table, a) then table
    else if a.correct then Checked(table, a.key, a.checkedAt) - {a.key}
    else Recorded(Checked(table, a.key, a.checkedAt), a.key, a.recordedAt)
  }

  function Run(table: Table, attempts: seq<Attempt>): Table
    decreases |attempts|
  {
    if attempts == [] then table else Run(After(table, attempts[0]), attempts[1..])
  }

  /** How many PINs of this client a run compares. */
  function Comparisons(table: Table, attempts: seq<Attempt>, key: ClientKey): nat
    decreases |attempts|
  {
    if attempts == [] then 0
    else
      var rest := Comparisons(After(table, attempts[0]), attempts[1..], key);
      if attempts[0].key == key && Admitted(table, attempts[0]) then 1 + rest else rest
  }

  /** The clock never goes back, within an attempt or between attempts. */
  predicate Ordered(attempts: seq<Attempt>, from: real, to: real)
    decreases |attempts|
  {
    if attempts == [] then from <= to
    else from <= attempts[0].checkedAt <= attempts[0].recordedAt && Ordered(attempts[1..], attempts[0].recordedAt, to)
  }

  /** How long after its start an episode of `failures` failures keeps the client locked at least. */
  function LockedFor(failures: nat): real {
    if failures < 5 then 0.0 else if failures == 5 then 30.0 else if failures == 6 then 90.0
    else if failures == 7 then 210.0 else 450.0
  }

  /** The state of one client after `n` comparisons in `episodes` episodes since `start`. */
  predicate Accounted(table: Table, key: ClientKey, start: real, now: real, episodes: nat, n: nat) {
    if key in table then
      var a := table[key];
      && episodes >= 1 && 1 <= a.failures <= 8 && n <= 8 * (episodes - 1) + a.failures
      && start + WINDOW * (episodes - 1) as real <= a.firstFailure <= now
      && (a.failures >= 5 ==> a.lockedUntil >= a.firstFailure + LockedFor(a.failures))
    else n <= 8 * episodes && start + WINDOW * episodes as real <= now
  }

  /** Any other client's attempts leave the account as it is. */
  lemma OthersDoNotCount(table: Table, a: Attempt, key: ClientKey)
    requires a.key != key
    ensures key in After(table, a) <==> key in table
    ensures key in table ==> After(table, a)[key] == table[key]
  {
  }

  /** A failed comparison opens a new episode more than the window after the last one began, or adds to
      the running one, which the growing lock keeps from a ninth. */
  lemma FailureIsAccounted(table: Table, a: Attempt, start: real, now: real, episodes: nat, n: nat)
    returns (episodes': nat)
    requires Accounted(table, a.key, start, now, episodes, n)
    requires now <= a.checkedAt <= a.recordedAt && !a.correct && Admitted(table, a)
    ensures episodes' == episodes || episodes' == episodes + 1
    ensures Accounted(After(table, a), a.key, start, a.recordedAt, episodes', n + 1)
  {
    var checked := Checked(table, a.key, a.checkedAt);
    if a.key !in checked {
      episodes' := episodes + 1;
      if a.key in table { assert WINDOW * episodes as real == WINDOW * (episodes - 1) as real + WINDOW; }
      assert After(table, a)[a.key] == Attempts(1, a.recordedAt, 0.0);
    } else {
      var s := table[a.key];
      assert s.failures < 8;
      var s' := After(table, a)[a.key];
      if a.recordedAt - s.firstFailure > WINDOW {
        episodes' := episodes + 1;
        assert WINDOW * episodes as real == WINDOW * (episodes - 1) as real + WINDOW;
        assert s'.failures == 1;
      } else {
        episodes' := episodes;
        if s'.failures >= 5 { LockDoubles(s'.failures); }
      }
    }
  }

  lemma {:induction false} RunIsAccounted(table: Table, attempts: seq<Attempt>, key: ClientKey,
                                          start: real, now: real, to: real, episodes: nat, n: nat)
                      returns (episodes': nat)
    requires Accounted(table, key, start, now, episodes, n) && Ordered(attempts, now, to)
    requires forall a :: a in attempts && a.key == key ==> !a.correct
    ensures Accounted(Run(table, attempts), key, start, to, episodes', n + Comparisons(table, attempts, key))
    decreases |attempts|
  {
    if attempts == [] {
      episodes' := episodes;
    } else {
      var a := attempts[0];
      var e, m := episodes, n;
      if a.key != key {
        OthersDoNotCount(table, a, key);
      } else if Admitted(table, a) {
        e := FailureIsAccounted(table, a, start, now, episodes, n);
        m := n + 1;
      }
      assert Accounted(After(table, a), key, start, a.recordedAt, e, m);
      episodes' := RunIsAccounted(After(table, a), attempts[1..], key, start, a.recordedAt, to, e, m);
    }
  }

  /** In any run of `t` seconds from a fresh state, whatever other clients do meanwhile, at most
      8 * (1 + floor(t / 300)) wrong PINs of one client are compared. */
  lemma WrongPinsAreBounded(table: Table, attempts: seq<Attempt>, key: ClientKey, start: real, t: real)
    requires key !in table && t >= 0.0 && Ordered(attempts, start, start + t)
    requires forall a :: a in attempts && a.key == key ==> !a.correct
    ensures Comparisons(table, attempts, key) <= 8 * (1 + (t / WINDOW).Floor)
  {
    var episodes := RunIsAccounted(table, attempts, key, start, start, start + t, 0, 0);
    var whole := if key in Run(table, attempts) then episodes - 1 else episodes;
    assert WINDOW * whole as real <= t;
    assert whole as real <= t / WINDOW;
    assert whole <= (t / WINDOW).Floor;
  }

  /** Within one counting episode no client ever has more than 8 failures. */
  lemma EpisodeIsBounded(table: Table, attempts: seq<Attempt>, key: ClientKey, start: real, to: real)
    requires key !in table && Ordered(attempts, start, to)
    requires forall a :: a in attempts && a.key == key ==> !a.correct
    ensures key in Run(table, attempts) ==> Run(table, attempts)[key].failures <= 8
  {
    var episodes := RunIsAccounted(table, attempts, key, start, start, to, 0, 0);
  }

  function At(key: ClientKey, t: real): Attempt { Attempt(key, false, t, t) }

  lemma Compared(table: Table, a: Attempt, rest: seq<Attempt>, from: real, to: real)
    requires Admitted(table, a) && from <= a.checkedAt <= a.recordedAt && Ordered(rest, a.recordedAt, to)
    ensures Comparisons(table, [a] + rest, a.key) == 1 + Comparisons(After(table, a), rest, a.key)
    ensures Ordered([a] + rest, from, to)
  {
    assert ([a] + rest)[1..] == rest;
  }

  /** Three wrong PINs as soon as the locks of 30, 60 and 120 seconds allow. */
  function LateAttempts(key: ClientKey): seq<Attempt> { [At(key, 30.0)] + ([At(key, 90.0)] + ([At(key, 210.0)] + [])) }

  function EightAttempts(key: ClientKey): seq<Attempt> {
    var zero := At(key, 0.0);
    [zero] + ([zero] + ([zero] + ([zero] + ([zero] + LateAttempts(key)))))
  }

  lemma ThreeMore(key: ClientKey)
    ensures Comparisons(map[key := Attempts(5, 0.0, 30.0)], LateAttempts(key), key) == 3
            && Ordered(LateAttempts(key), 0.0, 210.0)
  {
    LockDoubles(6);
    LockDoubles(7);
    var t5, t6, t7 := map[key := Attempts(5, 0.0, 30.0)], map[key := Attempts(6, 0.0, 90.0)],
      map[key := Attempts(7, 0.0, 210.0)];
    assert After(t5, At(key, 30.0)) == t6 && After(t6, At(key, 90.0)) == t7;
    Compared(t7, At(key, 210.0), [], 90.0, 210.0);
    Compared(t6, At(key, 90.0), [At(key, 210.0)] + [], 30.0, 210.0);
    Compared(t5, At(key, 30.0), [At(key, 90.0)] + ([At(key, 210.0)] + []), 0.0, 210.0);
  }

  /** The bound is met: eight wrong PINs are compared within 210 seconds. */
  lemma EightInOneWindow(key: ClientKey)
    ensures Ordered(EightAttempts(key), 0.0, 210.0) && Comparisons(map[], EightAttempts(key), key) == 8
  {
    LockDoubles(5);
    ThreeMore(key);
    var zero, late := At(key, 0.0), LateAttempts(key);
    var t := (n: nat) => map[key := Attempts(n, 0.0, 0.0)];
    assert After(t(4), zero) == map[key := Attempts(5, 0.0, 30.0)];
    assert After(t(3), zero) == t(4) && After(t(2), zero) == t(3) && After(t(1), zero) == t(2)
           && After(map[], zero) == t(1);
    Compared(t(4), zero, late, 0.0, 210.0);
    Compared(t(3), zero, [zero] + late, 0.0, 210.0);
    Compared(t(2), zero, [zero] + ([zero] + late), 0.0, 210.0);
    Compared(t(1), zero, [zero] + ([zero] + ([zero] + late)), 0.0, 210.0);
    Compared(map[], zero, [zero] + ([zero] + ([zero] + ([zero] + late))), 0.0, 210.0);
  }
}
