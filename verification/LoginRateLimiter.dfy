/** The login rate limiter: five failures lock a key for a minute; stale entries are cleaned up. */
module LoginRateLimiter {
  import opened Wrappers

  const MAX_FAILURES := 5
  /** Durations in nanoseconds. */
  const LOCK_DURATION := 60_000_000_000
  const ENTRY_TTL := 600_000_000_000
  const CLEANUP_THRESHOLD := 500

  /** Times are instants of the clock; `None` is Go's zero time, which lies before all of them. */
  datatype Entry = Entry(failures: nat, lockedUntil: Option<int>, lastSeen: Option<int>)

  type Entries = map<string, Entry>

  predicate After(time: Option<int>, now: int) {
    time.Some? && time.value > now
  }

  predicate Stale(e: Entry, now: int) {
    (e.lastSeen.None? || e.lastSeen.value < now - ENTRY_TTL) && !After(e.lockedUntil, now)
  }

  predicate Allowed(entries: Entries, key: string, now: int) {
    key !in entries || !After(entries[key].lockedUntil, now)
  }

  function AfterAllow(entries: Entries, key: string, now: int): Entries {
    if key in entries && entries[key].lockedUntil.Some? && !After(entries[key].lockedUntil, now)
    then entries - {key} else entries
  }

  function Cleaned(entries: Entries, now: int): Entries {
    map key | key in entries && !Stale(entries[key], now) :: entries[key]
  }

  function Counted(e: Entry, now: int): Entry {
    if e.failures + 1 >= MAX_FAILURES then Entry(0, Some(now + LOCK_DURATION), Some(now))
    else Entry(e.failures + 1, e.lockedUntil, Some(now))
  }

  function AfterFailure(entries: Entries, key: string, now: int): Entries {
    var remaining := if |entries| > CLEANUP_THRESHOLD then Cleaned(entries, now) else entries;
    remaining[key := Counted(if key in remaining then remaining[key] else Entry(0, None, None), now)]
  }

  class Limiter {
    var entries: Entries

    constructor ()
      ensures entries == map[]
    {
      entries := map[];
    }

    method Allow(key: string, now: int) returns (allowed: bool)
      modifies this
      ensures allowed == Allowed(old(entries), key, now)
      ensures entries == AfterAllow(old(entries), key, now)
    {
      if key !in entries {
        return true;
      }
      var entry := entries[key];
      if After(entry.lockedUntil, now) {
        return false;
      }
      if entry.lockedUntil.Some? && !After(entry.lockedUntil, now) {
        entries := entries - {key};
      }
      return true;
    }

    method RecordFailure(key: string, now: int)
      modifies this
      ensures entries == AfterFailure(old(entries), key, now)
    {
      if |entries| > CLEANUP_THRESHOLD {
        Cleanup(now);
      }
      var entry := if key in entries then entries[key] else Entry(0, None, None);
      entry := entry.(failures := entry.failures + 1, lastSeen := Some(now));
      if entry.failures >= MAX_FAILURES {
        entry := entry.(failures := 0, lockedUntil := Some(now + LOCK_DURATION));
      }
      entries := entries[key := entry];
    }

    method RecordSuccess(key: string)
      modifies this
      ensures entries == old(entries) - {key}
    {
      entries := entries - {key};
    }

    /** `cleanupLocked`: deletes while it walks over the keys. */
    method Cleanup(now: int)
      modifies this
      ensures entries == Cleaned(old(entries), now)
    {
      var keys := entries.Keys;
      while keys != {}
        invariant keys <= old(entries).Keys
        invariant entries == map key | key in old(entries) && (key in keys || !Stale(old(entries)[key], now))
                               :: old(entries)[key]
        decreases |keys|
      {
        var key :| key in keys;
        keys := keys - {key};
        if Stale(entries[key], now) {
          entries := entries - {key};
        }
      }
    }
  }

  // ---- Login attempts ----

  datatype Outcome = Malformed | Rejected | Accepted

  /** One login request: when the limiter was asked, when the result was recorded, and what the request
      turned out to be. */
  datatype Attempt = Attempt(key: string, asked: int, recorded: int, outcome: Outcome)

  /** What the limiter gets to record. A failure is late if its key was locked after it was asked about. */
  datatype Record =
    | Failure(key: string, time: int)
    | Success(key: string, time: int)
    | Late(key: string, time: int, asked: int, locked: int)

  datatype Status = TooManyRequests | BadRequest | Unauthorized | Granted

  /** The limiter's part of the login handler. */
  method Login(limiter: Limiter, a: Attempt) returns (status: Status)
    modifies limiter
    ensures limiter.entries == Attempted(old(limiter.entries), a)
    ensures status == if !Allowed(old(limiter.entries), a.key, a.asked) then TooManyRequests
                      else if a.outcome == Malformed then BadRequest
                      else if a.outcome == Rejected then Unauthorized else Granted
  {
    var allowed := limiter.Allow(a.key, a.asked);
    if !allowed {
      return TooManyRequests;
    }
    if a.outcome == Malformed {
      return BadRequest;
    }
    if a.outcome == Rejected {
      limiter.RecordFailure(a.key, a.recorded);
      return Unauthorized;
    }
    limiter.RecordSuccess(a.key);
    return Granted;
  }

  function Attempted(entries: Entries, a: Attempt): Entries {
    if !Allowed(entries, a.key, a.asked) then entries
    else
      match a.outcome
      case Malformed => AfterAllow(entries, a.key, a.asked)
      case Rejected => AfterFailure(AfterAllow(entries, a.key, a.asked), a.key, a.recorded)
      case Accepted => AfterAllow(entries, a.key, a.asked) - {a.key}
  }

  function Logged(entries: Entries, a: Attempt): seq<Record> {
    if !Allowed(entries, a.key, a.asked) || a.outcome == Malformed then []
    else if a.outcome == Rejected then [Failure(a.key, a.recorded)]
    else [Success(a.key, a.recorded)]
  }

  function Run(attempts: seq<Attempt>): Entries {
    if attempts == [] then map[] else Attempted(Run(attempts[..|attempts| - 1]), attempts[|attempts| - 1])
  }

  function Log(attempts: seq<Attempt>): seq<Record> {
    if attempts == [] then []
    else
      var init := attempts[..|attempts| - 1];
      Log(init) + Logged(Run(init), attempts[|attempts| - 1])
  }

  /** The clock never goes back, within an attempt or from one to the next. */
  ghost predicate Sequential(attempts: seq<Attempt>) {
    (forall i | 0 <= i < |attempts| :: attempts[i].asked <= attempts[i].recorded)
    && forall i | 0 < i < |attempts| :: attempts[i - 1].recorded <= attempts[i].asked
  }

  predicate InWindow(time: int, start: int) {
    start <= time < start + LOCK_DURATION
  }

  /** Failures of the key recorded in `records` within the window. */
  function FailuresIn(records: seq<Record>, key: string, start: int): nat {
    if records == [] then 0
    else
      var last := records[|records| - 1];
      FailuresIn(records[..|records| - 1], key, start)
      + if last.Failure? && last.key == key && InWindow(last.time, start) then 1 else 0
  }

  /** The same, counting only what came after the last success of the key. */
  function FailuresSince(records: seq<Record>, key: string, start: int): nat {
    if records == [] then 0
    else
      var last := records[|records| - 1];
      if last.Success? && last.key == key then 0
      else
        FailuresSince(records[..|records| - 1], key, start)
        + if last.Failure? && last.key == key && InWindow(last.time, start) then 1 else 0
  }

  /** Every failure of the key since its last success lies at or before `limit`. */
  predicate AllBy(records: seq<Record>, key: string, limit: int) {
    if records == [] then true
    else
      var last := records[|records| - 1];
      if last.Success? && last.key == key then true
      else
        (last.Failure? && last.key == key ==> last.time <= limit) && AllBy(records[..|records| - 1], key, limit)
  }

  lemma {:induction false} AllByMonotone(records: seq<Record>, key: string, limit: int, later: int)
    requires AllBy(records, key, limit) && limit <= later
    ensures AllBy(records, key, later)
  {
    if records != [] {
      var last := records[|records| - 1];
      if !(last.Success? && last.key == key) {
        AllByMonotone(records[..|records| - 1], key, limit, later);
      }
    }
  }

  /** No failure lies in a window that starts after all of them. */
  lemma {:induction false} NoneAfter(records: seq<Record>, key: string, limit: int, start: int)
    requires AllBy(records, key, limit) && limit < start
    ensures FailuresSince(records, key, start) == 0
  {
    if records != [] {
      var last := records[|records| - 1];
      if !(last.Success? && last.key == key) {
        NoneAfter(records[..|records| - 1], key, limit, start);
      }
    }
  }

  /** With all failures by `now`, a window that starts later, but not more than a lock duration before
      `now`, holds no more of them. */
  lemma {:induction false} LaterWindow(records: seq<Record>, key: string, now: int, start: int, later: int)
    requires AllBy(records, key, now) && now - LOCK_DURATION < start <= later
    ensures FailuresSince(records, key, later) <= FailuresSince(records, key, start)
  {
    if records != [] {
      var last := records[|records| - 1];
      if !(last.Success? && last.key == key) {
        LaterWindow(records[..|records| - 1], key, now, start, later);
      }
    }
  }

  // ---- The invariant ----

  /** The window that ends with `now`. */
  function Recent(records: seq<Record>, key: string, now: int): nat {
    FailuresSince(records, key, now - LOCK_DURATION + 1)
  }

  /** What the entry of a key says about its failures. */
  ghost predicate Tracks(entries: Entries, records: seq<Record>, key: string, now: int) {
    if key !in entries then Recent(records, key, now) == 0
    else
      var e := entries[key];
      match e.lockedUntil
      case None =>
        e.failures < MAX_FAILURES && Recent(records, key, now) <= e.failures
        && e.lastSeen.Some? && AllBy(records, key, e.lastSeen.value)
      case Some(until) => AllBy(records, key, until - LOCK_DURATION)
  }

  ghost predicate Bounded(records: seq<Record>, key: string) {
    forall start :: FailuresSince(records, key, start) <= MAX_FAILURES
  }

  ghost predicate Invariant(entries: Entries, records: seq<Record>, now: int) {
    forall key :: AllBy(records, key, now) && Tracks(entries, records, key, now) && Bounded(records, key)
  }

  lemma RecentFades(records: seq<Record>, key: string, now: int, later: int)
    requires AllBy(records, key, now) && now <= later
    ensures Recent(records, key, later) <= Recent(records, key, now)
  {
    LaterWindow(records, key, now, now - LOCK_DURATION + 1, later - LOCK_DURATION + 1);
  }

  lemma TimePasses(entries: Entries, records: seq<Record>, now: int, later: int)
    requires Invariant(entries, records, now) && now <= later
    ensures Invariant(entries, records, later)
  {
    forall key
      ensures AllBy(records, key, later) && Tracks(entries, records, key, later) && Bounded(records, key)
    {
      AllByMonotone(records, key, now, later);
      RecentFades(records, key, now, later);
    }
  }

  lemma AllowKeeps(entries: Entries, records: seq<Record>, key: string, now: int)
    requires Invariant(entries, records, now) && Allowed(entries, key, now)
    ensures Invariant(AfterAllow(entries, key, now), records, now)
    ensures key in AfterAllow(entries, key, now) ==> AfterAllow(entries, key, now)[key].lockedUntil == None
  {
    assert Tracks(entries, records, key, now);
    if key in entries && entries[key].lockedUntil.Some? {
      NoneAfter(records, key, entries[key].lockedUntil.value - LOCK_DURATION, now - LOCK_DURATION + 1);
    }
    var next := AfterAllow(entries, key, now);
    forall other
      ensures AllBy(records, other, now) && Tracks(next, records, other, now) && Bounded(records, other)
    {
      assert Tracks(entries, records, other, now);
    }
  }

  /** Dropping a stale entry loses nothing: its failures are out of every window that is still open. */
  lemma CleanupKeeps(entries: Entries, records: seq<Record>, now: int)
    requires Invariant(entries, records, now)
    ensures Invariant(Cleaned(entries, now), records, now)
  {
    forall key
      ensures AllBy(records, key, now) && Tracks(Cleaned(entries, now), records, key, now) && Bounded(records, key)
    {
      assert Tracks(entries, records, key, now);
      if key in entries && Stale(entries[key], now) {
        var e := entries[key];
        NoneAfter(records, key, if e.lockedUntil.Some? then e.lockedUntil.value - LOCK_DURATION else e.lastSeen.value,
                  now - LOCK_DURATION + 1);
      }
    }
  }

  lemma OtherKeyUnaffected(records: seq<Record>, r: Record, key: string, now: int)
    requires r.key != key
    ensures FailuresSince(records + [r], key, now) == FailuresSince(records, key, now)
    ensures AllBy(records + [r], key, now) <==> AllBy(records, key, now)
  {
    assert (records + [r])[..|records|] == records;
  }

  lemma FailureCounts(entries: Entries, records: seq<Record>, key: string, now: int)
    requires Invariant(entries, records, now)
    requires key in entries ==> entries[key].lockedUntil == None
    ensures var e := if key in entries then entries[key] else Entry(0, None, None);
            var next, log := entries[key := Counted(e, now)], records + [Failure(key, now)];
            AllBy(log, key, now) && Tracks(next, log, key, now) && Bounded(log, key)
  {
    var log := records + [Failure(key, now)];
    assert log[..|records|] == records;
    assert Tracks(entries, records, key, now) && Bounded(records, key);
    forall start
      ensures FailuresSince(log, key, start) <= MAX_FAILURES
    {
      if InWindow(now, start) {
        LaterWindow(records, key, now, now - LOCK_DURATION + 1, start);
      }
    }
  }

  lemma FailureKeeps(entries: Entries, records: seq<Record>, key: string, now: int)
    requires Invariant(entries, records, now)
    requires key in entries ==> entries[key].lockedUntil == None
    ensures Invariant(AfterFailure(entries, key, now), records + [Failure(key, now)], now)
  {
    var remaining := if |entries| > CLEANUP_THRESHOLD then Cleaned(entries, now) else entries;
    CleanupKeeps(entries, records, now);
    var next, log := AfterFailure(entries, key, now), records + [Failure(key, now)];
    FailureCounts(remaining, records, key, now);
    forall other | other != key
      ensures AllBy(log, other, now) && Tracks(next, log, other, now) && Bounded(log, other)
    {
      OthersKept(remaining, records, Failure(key, now), next, other, now);
    }
  }

  lemma OthersKept(entries: Entries, records: seq<Record>, r: Record, next: Entries, other: string, now: int)
    requires Invariant(entries, records, now) && r.key != other
    requires other in entries <==> other in next
    requires other in entries ==> next[other] == entries[other]
    ensures var log := records + [r];
            AllBy(log, other, now) && Tracks(next, log, other, now) && Bounded(log, other)
  {
    assert AllBy(records, other, now) && Tracks(entries, records, other, now) && Bounded(records, other);
    forall time
      ensures FailuresSince(records + [r], other, time) == FailuresSince(records, other, time)
      ensures AllBy(records + [r], other, time) <==> AllBy(records, other, time)
    {
      OtherKeyUnaffected(records, r, other, time);
    }
  }

  lemma SuccessKeeps(entries: Entries, records: seq<Record>, key: string, now: int, time: int)
    requires Invariant(entries, records, now)
    ensures Invariant(entries - {key}, records + [Success(key, time)], now)
  {
    var next, log := entries - {key}, records + [Success(key, time)];
    forall other
      ensures AllBy(log, other, now) && Tracks(next, log, other, now) && Bounded(log, other)
    {
      if other != key {
        OthersKept(entries, records, Success(key, time), next, other, now);
      }
    }
  }

  lemma AttemptKeeps(entries: Entries, records: seq<Record>, a: Attempt, now: int)
    requires Invariant(entries, records, now) && now <= a.asked <= a.recorded
    ensures Invariant(Attempted(entries, a), records + Logged(entries, a), a.recorded)
  {
    TimePasses(entries, records, now, a.asked);
    assert records + [] == records;
    if Allowed(entries, a.key, a.asked) {
      var allowed := AfterAllow(entries, a.key, a.asked);
      AllowKeeps(entries, records, a.key, a.asked);
      TimePasses(allowed, records, a.asked, a.recorded);
      match a.outcome
      case Malformed =>
      case Rejected => FailureKeeps(allowed, records, a.key, a.recorded);
      case Accepted => SuccessKeeps(allowed, records, a.key, a.recorded, a.recorded);
    } else {
      TimePasses(entries, records, a.asked, a.recorded);
    }
  }

  lemma {:induction false} RunKeeps(attempts: seq<Attempt>)
    requires Sequential(attempts) && attempts != []
    ensures Invariant(Run(attempts), Log(attempts), attempts[|attempts| - 1].recorded)
    decreases |attempts|
  {
    var init, last := attempts[..|attempts| - 1], attempts[|attempts| - 1];
    if init == [] {
      assert Invariant(map[], [], last.asked);
      AttemptKeeps(map[], [], last, last.asked);
      assert Log(attempts) == [] + Logged(map[], last);
    } else {
      RunKeeps(init);
      AttemptKeeps(Run(init), Log(init), last, init[|init| - 1].recorded);
    }
  }

  // ---- When a key is locked ----

  /** All failures of the key since its last success. */
  function CountSince(records: seq<Record>, key: string): nat {
    if records == [] then 0
    else
      var last := records[|records| - 1];
      if last.Success? && last.key == key then 0
      else CountSince(records[..|records| - 1], key) + if last.Failure? && last.key == key then 1 else 0
  }

  /** An entry counts no more failures than there were, and a lock starts with one after at least five. */
  ghost predicate Earned(e: Entry, records: seq<Record>, key: string) {
    match e.lockedUntil
    case None => e.failures <= CountSince(records, key)
    case Some(until) =>
      CountSince(records, key) >= MAX_FAILURES && Failure(key, until - LOCK_DURATION) in records
  }

  ghost predicate AllEarned(entries: Entries, records: seq<Record>) {
    forall key | key in entries :: Earned(entries[key], records, key)
  }

  lemma CountAppend(records: seq<Record>, r: Record, key: string)
    ensures CountSince(records + [r], key) ==
            if r.key != key then CountSince(records, key)
            else if r.Success? then 0 else CountSince(records, key) + if r.Failure? then 1 else 0
  {
    assert (records + [r])[..|records|] == records;
  }

  lemma FailureEarned(entries: Entries, records: seq<Record>, key: string, now: int)
    requires AllEarned(entries, records) && (key in entries ==> entries[key].lockedUntil == None)
    ensures AllEarned(AfterFailure(entries, key, now), records + [Failure(key, now)])
  {
    var next, log := AfterFailure(entries, key, now), records + [Failure(key, now)];
    assert log[|records|] == Failure(key, now);
    forall other | other in next
      ensures Earned(next[other], log, other)
    {
      CountAppend(records, Failure(key, now), other);
      if other != key {
        assert next[other] == entries[other] && Earned(entries[other], records, other);
      } else if other in entries {
        assert Earned(entries[other], records, other);
      }
    }
  }

  lemma AttemptEarned(entries: Entries, records: seq<Record>, a: Attempt)
    requires AllEarned(entries, records)
    ensures AllEarned(Attempted(entries, a), records + Logged(entries, a))
  {
    assert records + [] == records;
    if Allowed(entries, a.key, a.asked) {
      var allowed := AfterAllow(entries, a.key, a.asked);
      assert AllEarned(allowed, records);
      match a.outcome
      case Malformed =>
      case Rejected => FailureEarned(allowed, records, a.key, a.recorded);
      case Accepted =>
        var log := records + [Success(a.key, a.recorded)];
        forall other | other in allowed - {a.key}
          ensures Earned((allowed - {a.key})[other], log, other)
        {
          CountAppend(records, Success(a.key, a.recorded), other);
          assert Earned(allowed[other], records, other);
        }
    }
  }

  lemma {:induction false} RunEarned(attempts: seq<Attempt>)
    ensures AllEarned(Run(attempts), Log(attempts))
  {
    if attempts != [] {
      var init := attempts[..|attempts| - 1];
      RunEarned(init);
      AttemptEarned(Run(init), Log(init), attempts[|attempts| - 1]);
    }
  }

  lemma LockEarned(entries: Entries, records: seq<Record>, key: string, now: int)
    requires AllEarned(entries, records) && !Allowed(entries, key, now)
    ensures CountSince(records, key) >= MAX_FAILURES
    ensures exists r :: r in records && r.Failure? && r.key == key && r.time > now - LOCK_DURATION
  {
    var e := entries[key];
    assert Earned(e, records, key);
    assert Failure(key, e.lockedUntil.value - LOCK_DURATION) in records;
  }

  /** Nobody is locked out for less: in any run, a key that is refused has failed at least five times since
      its last success, one of them less than a minute ago. */
  lemma {:induction false} RefusedOnlyAfterFive(attempts: seq<Attempt>, key: string, now: int)
    requires !Allowed(Run(attempts), key, now)
    ensures CountSince(Log(attempts), key) >= MAX_FAILURES
    ensures exists r :: r in Log(attempts) && r.Failure? && r.key == key && r.time > now - LOCK_DURATION
  {
    RunEarned(attempts);
    LockEarned(Run(attempts), Log(attempts), key, now);
  }

  // ---- The bound ----

  ghost predicate NoSuccess(records: seq<Record>, key: string) {
    forall r | r in records && r.key == key :: !r.Success?
  }

  lemma {:induction false} SegmentBound(before: seq<Record>, segment: seq<Record>, key: string, start: int)
    requires NoSuccess(segment, key)
    ensures FailuresIn(segment, key, start) <= FailuresSince(before + segment, key, start)
    decreases |segment|
  {
    if segment != [] {
      var init, last := segment[..|segment| - 1], segment[|segment| - 1];
      assert (before + segment)[..|before + segment| - 1] == before + init;
      assert last in segment;
      SegmentBound(before, init, key, start);
    }
  }

  lemma {:induction false} PrefixBounded(attempts: seq<Attempt>, n: nat, key: string)
    requires Sequential(attempts) && n <= |Log(attempts)|
    ensures Bounded(Log(attempts)[..n], key)
    decreases |attempts|
  {
    if attempts != [] {
      var init := attempts[..|attempts| - 1];
      if n <= |Log(init)| {
        PrefixBounded(init, n, key);
        assert Log(attempts)[..n] == Log(init)[..n];
      } else {
        RunKeeps(attempts);
        assert Log(attempts)[..n] == Log(attempts);
      }
    }
  }

  /** The sliding-window bound: in any sequential run, whatever the other keys do and whatever is cleaned
      up, at most five failures of a key are recorded within any minute in which the key has no success. */
  lemma {:induction false} AtMostFiveFailures(attempts: seq<Attempt>, key: string, i: nat, j: nat, start: int)
    requires Sequential(attempts) && i <= j <= |Log(attempts)|
    requires NoSuccess(Log(attempts)[i..j], key)
    ensures FailuresIn(Log(attempts)[i..j], key, start) <= MAX_FAILURES
  {
    var log := Log(attempts);
    PrefixBounded(attempts, j, key);
    SegmentBound(log[..i], log[i..j], key, start);
    assert log[..i] + log[i..j] == log[..j];
  }
}
