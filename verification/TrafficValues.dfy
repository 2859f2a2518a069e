/** What the traffic counters say, told by the callbacks that happened. */
module TrafficValues {
  import opened Traffic

  /** The bytes that the callbacks of one connection moved in one direction. A callback needs a connection that was
      tracked before it. */
  function Moved(events: seq<Event>, id: nat, d: Direction): nat {
    if events == [] then 0
    else
      var init, last := events[..|events| - 1], events[|events| - 1];
      Moved(init, id, d)
      + if last.AddToConn? && last.id == id && last.direction == d && 1 <= id <= |Drawn(init)| then last.bytes else 0
  }

  /** What a step adds to the counter of a connection. */
  function AddedBy(e: Event, id: nat, d: Direction): nat {
    if e.AddToConn? && e.id == id && e.direction == d then e.bytes else 0
  }

  function CounterOf(st: State, id: nat, d: Direction): nat
    requires 1 <= id <= |st.conns|
  {
    if d == Upload then st.conns[id - 1].upload else st.conns[id - 1].download
  }

  lemma StepCounter(st: State, e: Event, id: nat, d: Direction)
    requires 1 <= id <= |st.conns| && CounterOf(st, id, d) < 0x1_0000_0000_0000_0000
    ensures var next := Advance(st, e);
            id <= |next.conns|
            && CounterOf(next, id, d) == (CounterOf(st, id, d) + AddedBy(e, id, d)) % 0x1_0000_0000_0000_0000
  {}

  lemma CounterGoesOn(st: State, e: Event, id: nat, d: Direction, moved: nat)
    requires 1 <= id <= |st.conns| && CounterOf(st, id, d) == moved % 0x1_0000_0000_0000_0000
    ensures id <= |Advance(st, e).conns|
    ensures CounterOf(Advance(st, e), id, d) == (moved + AddedBy(e, id, d)) % 0x1_0000_0000_0000_0000
  {
    StepCounter(st, e, id, d);
    AddResidue(moved, AddedBy(e, id, d));
  }

  lemma StepConns(st: State, e: Event)
    ensures var next := Advance(st, e);
            if e.DrawId? then next.conns == st.conns + [Counters(0, 0)] else |next.conns| == |st.conns|
  {}

  /** The counter of every connection is what its own callbacks moved, modulo 2^64, whatever other connections did and
      whether it was closed. */
  lemma {:induction false} CounterIsOwn(events: seq<Event>, id: nat, d: Direction)
    requires 1 <= id <= |Drawn(events)|
    ensures |Run(events).conns| == |Drawn(events)|
    ensures CounterOf(Run(events), id, d) == Moved(events, id, d) % 0x1_0000_0000_0000_0000
  {
    RunKeeps(events);
    DrawnIds(events);
    if events != [] {
      var init, last := events[..|events| - 1], events[|events| - 1];
      RunKeeps(init);
      DrawnIds(init);
      StepConns(Run(init), last);
      if id <= |Drawn(init)| {
        CounterIsOwn(init, id, d);
        CounterGoesOn(Run(init), last, id, d, Moved(init, id, d));
      } else {
        NothingBefore(init, id, d);
      }
    }
  }

  lemma AddResidue(x: nat, n: nat)
    ensures (x % 0x1_0000_0000_0000_0000 + n) % 0x1_0000_0000_0000_0000 == (x + n) % 0x1_0000_0000_0000_0000
  {
    var m := 0x1_0000_0000_0000_0000;
    var a, b, q := x % m + n, x + n, x / m;
    assert b == a + m * q;
    assert b == m * (a / m + q) + a % m;
  }

  /** A connection that is not tracked yet moved nothing. */
  lemma {:induction false} NothingBefore(events: seq<Event>, id: nat, d: Direction)
    requires id > |Drawn(events)|
    ensures Moved(events, id, d) == 0
  {
    if events != [] {
      NothingBefore(events[..|events| - 1], id, d);
    }
  }

  /** The total is the sum over all callbacks whose second half happened; with none in flight, over all. */
  function MovedByAll(events: seq<Event>, d: Direction): nat {
    if events == [] then 0
    else
      var init, last := events[..|events| - 1], events[|events| - 1];
      MovedByAll(init, d)
      + if last.AddToConn? && last.direction == d && 1 <= last.id <= |Drawn(init)| then last.bytes else 0
  }

  lemma FlightAppend(s: seq<Callback>, c: Callback, d: Direction)
    ensures InFlightBytes(s + [c], d) == InFlightBytes(s, d) + if c.direction == d then c.bytes else 0
  {
    assert (s + [c])[..|s|] == s;
  }

  function Counted(st: State, d: Direction): nat {
    (if d == Upload then st.totals.upload else st.totals.download) + InFlightBytes(st.inFlight, d)
  }

  /** What a step adds to the total and the callbacks in flight. */
  function MovedBy(st: State, e: Event, d: Direction): nat {
    if e.AddToConn? && e.direction == d && 1 <= e.id <= |st.conns| then e.bytes else 0
  }

  /** The second half of a callback moves its bytes from the callbacks in flight to the total. */
  lemma SecondHalf(st: State, i: nat, d: Direction)
    requires i < |st.inFlight|
    ensures Counted(Next(st, AddToTotal(i)), d) % 0x1_0000_0000_0000_0000 == Counted(st, d) % 0x1_0000_0000_0000_0000
  {
    var c := st.inFlight[i];
    var moved := if c.direction == d then c.bytes else 0;
    var next := Next(st, AddToTotal(i));
    InFlightRemove(st.inFlight, i, d);
    assert InFlightBytes(next.inFlight, d) == InFlightBytes(st.inFlight, d) - moved;
    var k := AddOf(st.totals, c.direction, c.bytes, d);
    assert Counted(next, d) == Counted(st, d) - 0x1_0000_0000_0000_0000 * k;
    Multiples(Counted(next, d), Counted(st, d), k);
  }

  lemma Multiples(x: nat, y: nat, k: nat)
    requires x == y - 0x1_0000_0000_0000_0000 * k
    ensures x % 0x1_0000_0000_0000_0000 == y % 0x1_0000_0000_0000_0000
  {}

  lemma FirstHalf(st: State, id: nat, direction: Direction, bytes: nat, d: Direction)
    requires 1 <= id <= |st.conns|
    ensures Counted(Next(st, AddToConn(id, direction, bytes)), d) ==
            Counted(st, d) + if direction == d then bytes else 0
  {
    FlightAppend(st.inFlight, Callback(direction, bytes), d);
  }

  lemma OtherStep(st: State, e: Event, d: Direction)
    requires !e.AddToTotal? && !e.AddToConn?
    ensures Counted(Advance(st, e), d) == Counted(st, d)
  {}

  lemma StepCounted(st: State, e: Event, d: Direction)
    ensures Counted(Advance(st, e), d) % 0x1_0000_0000_0000_0000
            == (Counted(st, d) + MovedBy(st, e, d)) % 0x1_0000_0000_0000_0000
  {
    match e
    case AddToTotal(i) =>
      if i < |st.inFlight| {
        SecondHalf(st, i, d);
      }
    case AddToConn(id, direction, bytes) =>
      if 1 <= id <= |st.conns| {
        FirstHalf(st, id, direction, bytes, d);
      }
    case _ => OtherStep(st, e, d);
  }

  /** Nothing is lost and nothing counted twice: the total and the callbacks in flight are all bytes that were moved. */
  lemma {:induction false} TotalIsMoved(events: seq<Event>, d: Direction)
    ensures Counted(Run(events), d) % 0x1_0000_0000_0000_0000 == MovedByAll(events, d) % 0x1_0000_0000_0000_0000
  {
    if events != [] {
      var init, last := events[..|events| - 1], events[|events| - 1];
      TotalIsMoved(init, d);
      DrawnIds(init);
      RunKeeps(init);
      StepCounted(Run(init), last, d);
      AddResidue(Counted(Run(init), d), MovedBy(Run(init), last, d));
      AddResidue(MovedByAll(init, d), MovedBy(Run(init), last, d));
    }
  }
}

/** What the ring buffer keeps, point by point. */
module TrafficHistoryValues {
  import opened TrafficHistory

  /** The last points of a history are as many as there are and as fit, each at its distance from the end. */
  lemma LastPoints(history: seq<Point>, n: nat)
    ensures var kept := LastOf(history, n);
            |kept| == (if |history| <= n then |history| else n)
            && forall k | 0 <= k < |kept| :: kept[k] == history[|history| - |kept| + k]
  {}

  /** Without a limit a new buffer keeps the last 600 points. */
  method KeepsSixHundred(added: seq<Point>) returns (snapshot: seq<Point>)
    ensures |snapshot| == if |added| <= 600 then |added| else 600
    ensures forall k | 0 <= k < |snapshot| :: snapshot[k] == added[|added| - |snapshot| + k]
  {
    snapshot := AddAll(0, added);
    LastPoints(added, 600);
  }
}
