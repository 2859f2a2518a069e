/** The login limiter with overlapping requests: the limiter is asked when a request comes in, and told of the
    result when it is known, and any number of requests may be between the two. */
module LoginOverlap {
  import opened Wrappers
  import opened LoginRateLimiter

  datatype Pending = Pending(key: string, asked: int)

  /** The limiter, the requests it has allowed that have no result yet, what was recorded, and the clock. */
  datatype State = State(entries: Entries, pending: map<nat, Pending>, log: seq<Record>, now: int)

  datatype Event = Ask(id: nat, key: string, time: int) | Finish(id: nat, time: int, outcome: Outcome)

  predicate Enabled(st: State, e: Event) {
    match e
    case Ask(id, _, time) => id !in st.pending && st.now <= time
    case Finish(id, time, _) => id in st.pending && st.now <= time
  }

  function Next(st: State, e: Event): State
    requires Enabled(st, e)
  {
    match e
    case Ask(id, key, time) =>
      if Allowed(st.entries, key, time) then
        State(AfterAllow(st.entries, key, time), st.pending[id := Pending(key, time)], st.log, time)
      else st.(now := time)
    case Finish(id, time, outcome) => Finished(st.(pending := st.pending - {id}), st.pending[id], time, outcome)
  }

  function Finished(st: State, p: Pending, time: int, outcome: Outcome): State {
    match outcome
    case Malformed => st.(now := time)
    case Accepted => State(st.entries - {p.key}, st.pending, st.log + [Success(p.key, time)], time)
    case Rejected =>
      State(AfterFailure(st.entries, p.key, time), st.pending, st.log + [RecordOf(st.entries, p, time)], time)
  }

  /** The failure is late if there is a lock, over or not: the request was allowed while there was none. */
  function RecordOf(entries: Entries, p: Pending, time: int): Record {
    if p.key in entries && entries[p.key].lockedUntil.Some? then
      Late(p.key, time, p.asked, entries[p.key].lockedUntil.value - LOCK_DURATION)
    else Failure(p.key, time)
  }

  /** An event that is not enabled does not happen. */
  function Advance(st: State, e: Event): State {
    if Enabled(st, e) then Next(st, e) else st
  }

  function Run(start: int, events: seq<Event>): State {
    if events == [] then State(map[], map[], [], start)
    else Advance(Run(start, events[..|events| - 1]), events[|events| - 1])
  }

  // ---- Late records count for nothing ----

  lemma LateIsNeutral(records: seq<Record>, r: Record, key: string, time: int)
    requires r.Late?
    ensures FailuresSince(records + [r], key, time) == FailuresSince(records, key, time)
    ensures AllBy(records + [r], key, time) <==> AllBy(records, key, time)
  {
    assert (records + [r])[..|records|] == records;
  }

  lemma LateKeepsOthers(entries: Entries, records: seq<Record>, r: Record, next: Entries, other: string, now: int)
    requires Invariant(entries, records, now) && r.Late?
    requires other in entries <==> other in next
    requires other in entries ==> next[other] == entries[other]
    ensures var log := records + [r];
            AllBy(log, other, now) && Tracks(next, log, other, now) && Bounded(log, other)
  {
    assert AllBy(records, other, now) && Tracks(entries, records, other, now) && Bounded(records, other);
    forall time
      ensures FailuresSince(records + [r], other, time) == FailuresSince(records, other, time)
      ensures AllBy(records + [r], other, time) <==> AllBy(records, other, time)
    {
      LateIsNeutral(records, r, other, time);
    }
  }

  /** A late failure may renew the lock; the failures that count all lie before the old one. */
  lemma LateKeeps(entries: Entries, records: seq<Record>, r: Record, now: int)
    requires Invariant(entries, records, now) && r.Late?
    requires r.key in entries && entries[r.key].lockedUntil.Some?
    ensures Invariant(AfterFailure(entries, r.key, now), records + [r], now)
  {
    var key := r.key;
    var remaining := if |entries| > CLEANUP_THRESHOLD then Cleaned(entries, now) else entries;
    CleanupKeeps(entries, records, now);
    var next, log := AfterFailure(entries, key, now), records + [r];
    forall other
      ensures AllBy(log, other, now) && Tracks(next, log, other, now) && Bounded(log, other)
    {
      if other != key {
        LateKeepsOthers(remaining, records, r, next, other, now);
      } else {
        LateAtKey(remaining, records, r, now);
      }
    }
  }

  lemma LateAtKey(entries: Entries, records: seq<Record>, r: Record, now: int)
    requires Invariant(entries, records, now) && r.Late?
    requires r.key in entries ==> entries[r.key].lockedUntil.Some?
    ensures var e := if r.key in entries then entries[r.key] else Entry(0, None, None);
            var log := records + [r];
            AllBy(log, r.key, now) && Bounded(log, r.key)
            && Tracks(entries[r.key := Counted(e, now)], log, r.key, now)
  {
    LateKeepsOthers(entries, records, r, entries, r.key, now);
    LateIsNeutral(records, r, r.key, now);
  }

  // ---- The invariant ----

  /** A request that is pending was asked about before its key was locked. */
  ghost predicate AskedBeforeLock(st: State) {
    forall id | id in st.pending ::
      var p := st.pending[id];
      p.asked <= st.now
      && (p.key in st.entries && st.entries[p.key].lockedUntil.Some? ==>
            p.asked <= st.entries[p.key].lockedUntil.value - LOCK_DURATION)
  }

  /** Locks lie in the past, and every late failure met a lock that was set after its request was allowed. */
  ghost predicate Ordered(st: State) {
    (forall key | key in st.entries && st.entries[key].lockedUntil.Some? ::
       st.entries[key].lockedUntil.value - LOCK_DURATION <= st.now)
    && forall r | r in st.log && r.Late? :: r.asked <= r.locked <= r.time <= st.now
  }

  ghost predicate Sound(st: State) {
    Invariant(st.entries, st.log, st.now) && AskedBeforeLock(st) && Ordered(st)
  }

  lemma AskKeeps(st: State, e: Event)
    requires Sound(st) && e.Ask? && Enabled(st, e)
    ensures Sound(Next(st, e))
  {
    TimePasses(st.entries, st.log, st.now, e.time);
    if Allowed(st.entries, e.key, e.time) {
      AllowKeeps(st.entries, st.log, e.key, e.time);
    }
  }

  lemma FinishKeeps(st: State, p: Pending, time: int, outcome: Outcome)
    requires Sound(st) && st.now <= time && p.asked <= st.now
    requires p.key in st.entries && st.entries[p.key].lockedUntil.Some? ==>
               p.asked <= st.entries[p.key].lockedUntil.value - LOCK_DURATION
    ensures Sound(Finished(st, p, time, outcome))
  {
    TimePasses(st.entries, st.log, st.now, time);
    match outcome
    case Malformed =>
    case Accepted => SuccessKeeps(st.entries, st.log, p.key, time, time);
    case Rejected =>
      var r := RecordOf(st.entries, p, time);
      if r.Late? {
        LateKeeps(st.entries, st.log, r, time);
      } else {
        FailureKeeps(st.entries, st.log, p.key, time);
      }
      FailureOrder(st, p, time);
  }

  /** Recording a failure changes no lock, or sets one at this moment. */
  lemma FailureLocks(entries: Entries, key: string, now: int, other: string)
    requires other in AfterFailure(entries, key, now) && AfterFailure(entries, key, now)[other].lockedUntil.Some?
    ensures AfterFailure(entries, key, now)[other].lockedUntil == Some(now + LOCK_DURATION)
            || (other in entries && AfterFailure(entries, key, now)[other].lockedUntil == entries[other].lockedUntil)
  {}

  lemma FailureOrder(st: State, p: Pending, time: int)
    requires AskedBeforeLock(st) && Ordered(st) && st.now <= time && p.asked <= st.now
    requires p.key in st.entries && st.entries[p.key].lockedUntil.Some? ==>
               p.asked <= st.entries[p.key].lockedUntil.value - LOCK_DURATION
    ensures AskedBeforeLock(Finished(st, p, time, Rejected)) && Ordered(Finished(st, p, time, Rejected))
  {
    var next := Finished(st, p, time, Rejected);
    forall key | key in next.entries && next.entries[key].lockedUntil.Some?
      ensures next.entries[key].lockedUntil.value - LOCK_DURATION <= time
      ensures forall id | id in st.pending && st.pending[id].key == key ::
                st.pending[id].asked <= next.entries[key].lockedUntil.value - LOCK_DURATION
    {
      FailureLocks(st.entries, p.key, time, key);
    }
  }

  lemma AdvanceKeeps(st: State, e: Event)
    requires Sound(st)
    ensures Sound(Advance(st, e))
  {
    if Enabled(st, e) {
      match e
      case Ask(_, _, _) => AskKeeps(st, e);
      case Finish(id, time, outcome) => FinishKeeps(st.(pending := st.pending - {id}), st.pending[id], time, outcome);
    }
  }

  lemma {:induction false} RunKeeps(start: int, events: seq<Event>)
    ensures Sound(Run(start, events))
  {
    if events != [] {
      RunKeeps(start, events[..|events| - 1]);
      AdvanceKeeps(Run(start, events[..|events| - 1]), events[|events| - 1]);
    }
  }

  // ---- The theorems ----

  lemma AdvanceLog(st: State, e: Event)
    ensures st.log <= Advance(st, e).log && |Advance(st, e).log| <= |st.log| + 1
  {}

  lemma {:induction false} PrefixBounded(start: int, events: seq<Event>, n: nat, key: string)
    requires n <= |Run(start, events).log|
    ensures Bounded(Run(start, events).log[..n], key)
    decreases |events|
  {
    RunKeeps(start, events);
    var log := Run(start, events).log;
    if n == |log| {
      assert log[..n] == log;
    } else {
      var init := events[..|events| - 1];
      AdvanceLog(Run(start, init), events[|events| - 1]);
      PrefixBounded(start, init, n, key);
      assert log[..n] == Run(start, init).log[..n];
    }
  }

  /** Late failures of the key recorded in `records` within the window. */
  function LateIn(records: seq<Record>, key: string, start: int): nat {
    if records == [] then 0
    else
      var last := records[|records| - 1];
      LateIn(records[..|records| - 1], key, start)
      + if last.Late? && last.key == key && InWindow(last.time, start) then 1 else 0
  }

  /** All failures of the key recorded in `records` within the window, late or not. */
  function AllFailuresIn(records: seq<Record>, key: string, start: int): nat {
    if records == [] then 0
    else
      var last := records[|records| - 1];
      AllFailuresIn(records[..|records| - 1], key, start)
      + if !last.Success? && last.key == key && InWindow(last.time, start) then 1 else 0
  }

  lemma {:induction false} AllAreCounted(records: seq<Record>, key: string, start: int)
    ensures AllFailuresIn(records, key, start) == FailuresIn(records, key, start) + LateIn(records, key, start)
  {
    if records != [] {
      AllAreCounted(records[..|records| - 1], key, start);
    }
  }

  /** The bound with any overlap: within any minute in which a key has no success, at most five failures are
      recorded beside those that come late. */
  lemma {:induction false} FiveAndTheLate(begin: int, events: seq<Event>, key: string, i: nat, j: nat, start: int)
    requires i <= j <= |Run(begin, events).log| && NoSuccess(Run(begin, events).log[i..j], key)
    ensures var segment := Run(begin, events).log[i..j];
            AllFailuresIn(segment, key, start) <= MAX_FAILURES + LateIn(segment, key, start)
  {
    var log := Run(begin, events).log;
    PrefixBounded(begin, events, j, key);
    SegmentBound(log[..i], log[i..j], key, start);
    assert log[..i] + log[i..j] == log[..j];
    AllAreCounted(log[i..j], key, start);
  }

  /** A late failure belongs to a request that was in flight when the key was locked: it had been allowed by
      then and had no result yet. */
  lemma {:induction false} LateWereInFlight(begin: int, events: seq<Event>, r: Record)
    requires r in Run(begin, events).log && r.Late?
    ensures r.asked <= r.locked <= r.time
  {
    RunKeeps(begin, events);
  }

  lemma RunAppend(start: int, events: seq<Event>, e: Event)
    ensures Run(start, events + [e]) == Advance(Run(start, events), e)
  {
    assert (events + [e])[..|events|] == events;
  }

  predicate From(id: nat, first: nat) {
    first <= id
  }

  /** Requests with consecutive ids, all asked about at time 0. */
  function Asked(key: string, first: nat, end: nat): map<nat, Pending> {
    map id: nat | id < end && From(id, first) :: Pending(key, 0)
  }

  function AfterFailures(key: string, k: nat): Entries {
    if k == 0 then map[]
    else if k < MAX_FAILURES then map[key := Entry(k, None, Some(0))]
    else map[key := Entry(k - MAX_FAILURES, Some(LOCK_DURATION), Some(0))]
  }

  lemma NextFailure(key: string, k: nat)
    requires k < 6
    ensures AfterFailure(AfterFailures(key, k), key, 0) == AfterFailures(key, k + 1)
  {
    assert |AfterFailures(key, k)| <= 1;
  }

  lemma OneLess(key: string, k: nat)
    requires k < 6
    ensures k in Asked(key, k, 6) && Asked(key, k, 6)[k] == Pending(key, 0)
    ensures Asked(key, k, 6) - {k} == Asked(key, k + 1, 6)
  {
    assert From(k, k);
    forall id: nat
      ensures From(id, k + 1) <==> From(id, k) && id != k
    {}
  }

  lemma OneMoreRecord(log: seq<Record>, r: Record, key: string)
    requires !r.Success? && r.key == key && r.time == 0
    ensures AllFailuresIn(log + [r], key, 0) == AllFailuresIn(log, key, 0) + 1
  {
    assert (log + [r])[..|log|] == log;
  }

  lemma OneMoreFails(st: State, key: string, k: nat)
    requires k < 6 && st.entries == AfterFailures(key, k) && st.pending == Asked(key, k, 6) && st.now == 0
    ensures var next := Advance(st, Finish(k, 0, Rejected));
            next.entries == AfterFailures(key, k + 1) && next.pending == Asked(key, k + 1, 6) && next.now == 0
            && AllFailuresIn(next.log, key, 0) == AllFailuresIn(st.log, key, 0) + 1
  {
    NextFailure(key, k);
    OneLess(key, k);
    OneMoreRecord(st.log, RecordOf(st.entries, Pending(key, 0), 0), key);
  }

  /** The bound of sequential requests does not hold for overlapping ones: six that are all allowed before any
      of them fails are six failures at once. */
  lemma {:induction false} SixAtOnce(key: string) returns (events: seq<Event>)
    ensures AllFailuresIn(Run(0, events).log, key, 0) == 6 > MAX_FAILURES
  {
    events := [];
    for i := 0 to 6
      invariant Run(0, events) == State(map[], Asked(key, 0, i), [], 0)
    {
      RunAppend(0, events, Ask(i, key, 0));
      assert Asked(key, 0, i)[i as nat := Pending(key, 0)] == Asked(key, 0, i + 1);
      events := events + [Ask(i, key, 0)];
    }
    for k := 0 to 6
      invariant Run(0, events).entries == AfterFailures(key, k) && Run(0, events).pending == Asked(key, k, 6)
      invariant Run(0, events).now == 0 && AllFailuresIn(Run(0, events).log, key, 0) == k
    {
      RunAppend(0, events, Finish(k, 0, Rejected));
      OneMoreFails(Run(0, events), key, k);
      events := events + [Finish(k, 0, Rejected)];
    }
  }
}
