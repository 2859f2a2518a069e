/** The login limits in numbers: five failures, one minute, ten minutes, 500 entries. */
module LoginLimits {
  import opened Wrappers
  import opened LoginRateLimiter

  /** Growing positions of failures of the key, from `i` on and below `j`. */
  ghost predicate AreFailures(log: seq<Record>, key: string, positions: seq<nat>, i: nat, j: nat) {
    && (forall n | 0 <= n < |positions| ::
          i <= positions[n] < j <= |log| && log[positions[n]].Failure? && log[positions[n]].key == key)
    && forall m, n | 0 <= m < n < |positions| :: positions[m] < positions[n]
  }

  /** All of them within one minute from `start` on. */
  ghost predicate InMinute(log: seq<Record>, positions: seq<nat>, start: int) {
    forall n | 0 <= n < |positions| ::
      positions[n] < |log| && start <= log[positions[n]].time < start + 60_000_000_000
  }

  lemma {:induction false} CountsAll(log: seq<Record>, key: string, positions: seq<nat>, i: nat, j: nat, start: int)
    requires i <= j <= |log| && AreFailures(log, key, positions, i, j) && InMinute(log, positions, start)
    ensures FailuresIn(log[i..j], key, start) >= |positions|
    decreases j
  {
    if positions != [] {
      var n := |positions| - 1;
      assert i <= positions[n] < j;
      assert log[i..j][..j - i - 1] == log[i..j - 1];
      if positions[n] == j - 1 {
        CountsAll(log, key, positions[..n], i, j - 1, start);
      } else {
        forall m | 0 <= m < |positions|
          ensures positions[m] < j - 1
        {
          assert m < n ==> positions[m] < positions[n];
        }
        CountsAll(log, key, positions, i, j - 1, start);
      }
    }
  }

  /** Within any minute in which a key has no success, no six failures of it are recorded, in any sequential run. */
  lemma {:induction false} NoSixInAMinute(attempts: seq<Attempt>, key: string, i: nat, j: nat, start: int,
                                          positions: seq<nat>)
    requires Sequential(attempts) && i <= j <= |Log(attempts)|
    requires forall n | i <= n < j && Log(attempts)[n].key == key :: !Log(attempts)[n].Success?
    requires AreFailures(Log(attempts), key, positions, i, j) && InMinute(Log(attempts), positions, start)
    ensures |positions| <= 5
  {
    AtMostFiveFailures(attempts, key, i, j, start);
    CountsAll(Log(attempts), key, positions, i, j, start);
  }

  lemma {:induction false} FailuresSinceSuccess(log: seq<Record>, key: string, n: nat) returns (positions: seq<nat>)
    requires n <= CountSince(log, key)
    ensures |positions| == n && AreFailures(log, key, positions, 0, |log|)
    ensures n > 0 ==> forall k | positions[0] <= k < |log| && log[k].key == key :: !log[k].Success?
    decreases |log|
  {
    if n == 0 {
      return [];
    }
    var init, last := log[..|log| - 1], log[|log| - 1];
    if last.Failure? && last.key == key {
      var before := FailuresSinceSuccess(init, key, n - 1);
      positions := before + [|log| - 1];
    } else {
      positions := FailuresSinceSuccess(init, key, n);
    }
  }

  /** A key that is refused has five failures recorded without a success since the first of them, and one of its
      failures is less than a minute old. */
  lemma {:induction false} RefusedHasFive(attempts: seq<Attempt>, key: string, now: int)
    returns (positions: seq<nat>, latest: nat)
    requires !Allowed(Run(attempts), key, now)
    ensures |positions| == 5 && AreFailures(Log(attempts), key, positions, 0, |Log(attempts)|)
    ensures forall k | positions[0] <= k < |Log(attempts)| && Log(attempts)[k].key == key ::
              !Log(attempts)[k].Success?
    ensures latest < |Log(attempts)| && Log(attempts)[latest].Failure? && Log(attempts)[latest].key == key
            && Log(attempts)[latest].time > now - 60_000_000_000
  {
    RefusedOnlyAfterFive(attempts, key, now);
    positions := FailuresSinceSuccess(Log(attempts), key, 5);
    var r :| r in Log(attempts) && r.Failure? && r.key == key && r.time > now - LOCK_DURATION;
    latest :| 0 <= latest < |Log(attempts)| && Log(attempts)[latest] == r;
  }

  /** An entry that a cleanup keeps: seen in the last ten minutes or still locked. */
  predicate IsFresh(e: Entry, now: int) {
    || (e.lastSeen.Some? && e.lastSeen.value >= now - 600_000_000_000)
    || (e.lockedUntil.Some? && e.lockedUntil.value > now)
  }

  /** A failure does not touch the entry of another key, except that with more than 500 entries those that are not
      fresh are dropped. */
  lemma OthersAfterFailure(entries: Entries, key: string, now: int, other: string)
    requires other != key
    ensures var after := AfterFailure(entries, key, now);
            && (other in after <==> other in entries && (|entries| <= 500 || IsFresh(entries[other], now)))
            && (other in after ==> after[other] == entries[other])
  {}

  /** The fifth failure locks the key for a minute to the nanosecond; one before the fifth does not lock it. */
  lemma {:induction false} FifthFailureLocks(entries: Entries, key: string, now: int, later: int)
    requires key in entries && IsFresh(entries[key], now) && entries[key].lockedUntil == None
    ensures entries[key].failures == 4 ==>
              (Allowed(AfterFailure(entries, key, now), key, later) <==> later >= now + 60_000_000_000)
    ensures entries[key].failures < 4 ==> Allowed(AfterFailure(entries, key, now), key, later)
  {}

  /** Rejected attempts with one key, and nothing else. */
  ghost predicate AllRejected(attempts: seq<Attempt>, key: string) {
    forall i | 0 <= i < |attempts| :: attempts[i].key == key && attempts[i].outcome == Rejected
  }

  lemma {:induction false} RejectedInARow(attempts: seq<Attempt>, key: string)
    requires AllRejected(attempts, key) && 0 < |attempts| <= 5
    ensures var entries := Run(attempts);
            var last := attempts[|attempts| - 1].recorded;
            entries == map[key := if |attempts| < 5 then Entry(|attempts|, None, Some(last))
                                  else Entry(0, Some(last + 60_000_000_000), Some(last))]
  {
    if |attempts| == 1 {
      assert attempts[..0] == [];
      assert Run(attempts) == Attempted(map[], attempts[0]);
    } else {
      RejectedInARow(attempts[..|attempts| - 1], key);
    }
  }

  /** Four rejected attempts in a row leave the key open; after the fifth it is refused for exactly a minute. */
  lemma {:induction false} LockedAfterFive(attempts: seq<Attempt>, key: string, now: int)
    requires AllRejected(attempts, key) && 0 < |attempts| <= 5
    ensures Allowed(Run(attempts), key, now) <==>
            |attempts| < 5 || now >= attempts[|attempts| - 1].recorded + 60_000_000_000
  {
    RejectedInARow(attempts, key);
  }
}
