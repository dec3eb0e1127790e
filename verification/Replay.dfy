// Replay protection: the clock-skew test of the protocol timestamps, the cache
// of used nonces with its pruning loop, and how the two windows fit together.
module Replay {
  import opened Results
  import opened Chunking

  const SECOND := 1_000_000_000
  const RETENTION := 300 * SECOND
  const SKEW := 120

  // time.Time.Unix of a clock counted in nanoseconds.
  function Unix(now: int): int {
    now / SECOND
  }

  // The difference and its negation are taken in int64; None is a timestamp
  // that does not parse as one.
  predicate ValidProtocolTime(timestamp: Option<int>, now: int) {
    timestamp.Some?
    && var difference := Wrap64(Unix(now) - timestamp.value);
       (if difference < 0 then Wrap64(-difference) else difference) <= SKEW
  }

  predicate IsInt64(x: int) {
    -MAX_INT64 - 1 <= x <= MAX_INT64
  }

  // Clocks from 1970 to the year 146 billion.
  predicate SaneClock(now: int) {
    0 <= Unix(now) <= MAX_INT64 / 2
  }

  // The test is the two-minute window, plus the one timestamp whose difference
  // has no int64 negation.
  lemma ValidTimeIff(seconds: int, now: int)
    requires IsInt64(seconds) && SaneClock(now)
    ensures ValidProtocolTime(Some(seconds), now)
            <==> -SKEW <= Unix(now) - seconds <= SKEW || seconds == Unix(now) - MAX_INT64 - 1
  {
  }

  // Two clock readings that both admit one timestamp are less than four minutes
  // and one second apart.
  lemma WindowWidth(seconds: int, c: int, d: int)
    requires IsInt64(seconds) && SaneClock(c) && SaneClock(d)
    requires ValidProtocolTime(Some(seconds), c) && ValidProtocolTime(Some(seconds), d)
    ensures d - c < (2 * SKEW + 1) * SECOND
  {
    ValidTimeIff(seconds, c);
    ValidTimeIff(seconds, d);
    hide ValidProtocolTime;
    DivBounds(c, SECOND);
    DivBounds(d, SECOND);
  }

  type Nonces = map<string, int>

  function Pruned(nonces: Nonces, now: int): Nonces {
    map n | n in nonces && now - nonces[n] <= RETENTION :: nonces[n]
  }

  // The cache after one use: the nonce is taken unless it is still remembered.
  function Used(nonces: Nonces, nonce: string, now: int): Nonces {
    var kept := Pruned(nonces, now);
    if nonce in kept then kept else kept[nonce := now]
  }

  class NonceCache {
    var nonces: Nonces

    constructor ()
      ensures nonces == map[]
    {
      nonces := map[];
    }

    // useAuthenticationNonce: forgets what is older than five minutes, then
    // takes the nonce unless it is still remembered.
    method Use(nonce: string, now: int) returns (taken: bool)
      modifies this
      ensures taken <==> nonce !in Pruned(old(nonces), now)
      ensures nonces == Used(old(nonces), nonce, now)
    {
      var pending := nonces.Keys;
      while pending != {}
        invariant pending <= nonces.Keys <= old(nonces).Keys
        invariant forall n :: n in nonces ==> nonces[n] == old(nonces)[n]
        invariant forall n :: n in old(nonces) ==>
          (n in nonces <==> n in pending || now - old(nonces)[n] <= RETENTION)
        decreases |pending|
      {
        var value :| value in pending;
        pending := pending - {value};
        if RETENTION < now - nonces[value] {
          nonces := nonces - {value};
        }
      }
      assert nonces == Pruned(old(nonces), now);
      if nonce in nonces {
        return false;
      }
      nonces := nonces[nonce := now];
      return true;
    }
  }

  // --- runs ---------------------------------------------------------------------

  // One authentication of a correctly signed message: when its timestamp was
  // checked, the clock reading passed to the cache, and when the cache's lock
  // was taken. Attempts are listed in the order of their locks.
  datatype Attempt = Attempt(nonce: string, seconds: Option<int>, check: int, read: int, lock: int)

  // A restart of the process loses the cache: it is only in memory.
  datatype Event = Message(attempt: Attempt) | Restart

  predicate TimeAccepted(a: Attempt) {
    a.nonce != "" && ValidProtocolTime(a.seconds, a.check)
  }

  function CacheAfter(events: seq<Event>, k: nat): Nonces
    requires k <= |events|
  {
    if k == 0 then map[]
    else
      var before := CacheAfter(events, k - 1);
      match events[k - 1]
      case Restart => map[]
      case Message(a) => if TimeAccepted(a) then Used(before, a.nonce, a.read) else before
  }

  predicate Accepted(events: seq<Event>, k: nat)
    requires k < |events|
  {
    events[k].Message?
    && var a := events[k].attempt;
       TimeAccepted(a) && a.nonce !in Pruned(CacheAfter(events, k), a.read)
  }

  predicate TimelyAttempt(a: Attempt, stall: nat) {
    && a.check <= a.read <= a.lock <= a.check + stall && SaneClock(a.check)
    && (a.seconds.Some? ==> IsInt64(a.seconds.value))
  }

  predicate InOrder(before: Event, after: Event) {
    before.Message? && after.Message? ==> before.attempt.lock <= after.attempt.lock
  }

  predicate FarApart(before: Event, after: Event, gap: nat) {
    before.Message? && after.Message? ==> before.attempt.lock + gap <= after.attempt.check
  }

  // A non-decreasing clock, at most `stall` between a check and the lock, and at
  // least `gap` between the last use of a cache and the first check after the
  // restart that lost it.
  ghost predicate Timely(events: seq<Event>, stall: nat, gap: nat) {
    && (forall i :: 0 <= i < |events| && events[i].Message? ==> TimelyAttempt(events[i].attempt, stall))
    && (forall i, j :: 0 <= i < j < |events| ==> InOrder(events[i], events[j]))
    && (forall i, j :: 0 <= i < j < |events| && RestartsBetween(events, i, j) ==> FarApart(events[i], events[j], gap))
  }

  ghost predicate RestartsBetween(events: seq<Event>, i: nat, k: nat)
    requires i < k <= |events|
  {
    exists m :: i < m < k && events[m].Restart?
  }

  // The same signed message is accepted again.
  ghost predicate Replayed(events: seq<Event>) {
    exists i, j :: 0 <= i < j < |events| && Accepted(events, i) && Accepted(events, j)
      && SameMessage(events[i].attempt, events[j].attempt)
  }

  predicate SameMessage(a: Attempt, b: Attempt) {
    a.nonce == b.nonce && a.seconds == b.seconds
  }

  predicate Later(e: Event, read: int) {
    e.Message? && RETENTION < e.attempt.read - read
  }

  ghost predicate Forgotten(events: seq<Event>, i: nat, k: nat)
    requires i < k <= |events| && events[i].Message?
  {
    exists m :: i < m < k && Later(events[m], events[i].attempt.read)
  }

  // An accepted nonce is remembered until some later attempt reads a clock more
  // than five minutes ahead, or the process restarts.
  lemma {:induction false} RememberedOrForgotten(events: seq<Event>, i: nat, k: nat)
    requires i < k <= |events| && Accepted(events, i)
    ensures var a := events[i].attempt;
      Forgotten(events, i, k) || RestartsBetween(events, i, k)
      || (a.nonce in CacheAfter(events, k) && CacheAfter(events, k)[a.nonce] == a.read)
  {
    hide ValidProtocolTime;
    if i + 1 < k {
      RememberedOrForgotten(events, i, k - 1);
      if Forgotten(events, i, k - 1) {
        var m :| i < m < k - 1 && Later(events[m], events[i].attempt.read);
        assert Forgotten(events, i, k);
      } else if RestartsBetween(events, i, k - 1) {
        var m :| i < m < k - 1 && events[m].Restart?;
        assert RestartsBetween(events, i, k);
      } else if events[k - 1].Restart? {
        assert RestartsBetween(events, i, k);
      } else if Later(events[k - 1], events[i].attempt.read) {
        assert Forgotten(events, i, k);
      }
    }
  }

  // The widest spread of clock readings that accept one timestamp, plus one.
  const WINDOW := (2 * SKEW + 1) * SECOND

  const STALL := RETENTION - WINDOW + 1

  lemma ReplayNeedsStall(events: seq<Event>, stall: nat, gap: nat)
    requires Timely(events, stall, gap) && Replayed(events)
    ensures STALL < stall || gap < WINDOW
  {
    var i, j :| 0 <= i < j < |events| && Accepted(events, i) && Accepted(events, j)
      && SameMessage(events[i].attempt, events[j].attempt);
    var a, b := events[i].attempt, events[j].attempt;
    assert TimelyAttempt(a, stall) && TimelyAttempt(b, stall);
    WindowWidth(a.seconds.value, a.check, b.check);
    RememberedOrForgotten(events, i, j);
    hide ValidProtocolTime;
    if RestartsBetween(events, i, j) {
      assert FarApart(events[i], events[j], gap);
    } else if Forgotten(events, i, j) {
      var m :| i < m < j && Later(events[m], a.read);
      assert TimelyAttempt(events[m].attempt, stall) && InOrder(events[m], events[j]);
    }
  }

  lemma StallReplays(stall: nat, gap: nat) returns (events: seq<Event>)
    requires STALL < stall
    ensures Timely(events, stall, gap) && Replayed(events)
  {
    events := [
      Message(Attempt("n", Some(SKEW), 0, 0, 0)),
      Message(Attempt("n", Some(SKEW), WINDOW - 1, RETENTION + 1, RETENTION + 1))];
    assert CacheAfter(events, 1) == map["n" := 0];
    assert Accepted(events, 0) && Accepted(events, 1);
  }

  lemma RestartReplays(stall: nat, gap: nat) returns (events: seq<Event>)
    requires gap < WINDOW
    ensures Timely(events, stall, gap) && Replayed(events)
  {
    events := [
      Message(Attempt("n", Some(SKEW), 0, 0, 0)),
      Restart,
      Message(Attempt("n", Some(SKEW), WINDOW - 1, WINDOW - 1, WINDOW - 1))];
    assert CacheAfter(events, 2) == map[];
    assert Accepted(events, 0) && Accepted(events, 2);
  }

  // No signed message passes authentication twice, however often it is sent and
  // whatever else is, exactly when no attempt waits longer than 59 seconds and a
  // nanosecond between its timestamp check and its place in the cache, and no
  // process starts within 241 seconds of its predecessor's last attempt.
  lemma NoReplayIff(stall: nat, gap: nat)
    ensures (forall events :: Timely(events, stall, gap) ==> !Replayed(events)) <==> stall <= STALL && WINDOW <= gap
    ensures STALL == 59 * SECOND + 1 && WINDOW == 241 * SECOND
  {
    if STALL < stall {
      var events := StallReplays(stall, gap);
    } else if gap < WINDOW {
      var events := RestartReplays(stall, gap);
    } else {
      forall events | Timely(events, stall, gap) ensures !Replayed(events) {
        if Replayed(events) {
          ReplayNeedsStall(events, stall, gap);
        }
      }
    }
  }
}
