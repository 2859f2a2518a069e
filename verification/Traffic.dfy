/** The traffic tracker under interleaving: a read or write adds its bytes to the counter of its
    connection and, in a second atomic step, to the total. */
module Traffic {

  /** `atomic.Int64` adds modulo 2^64; a counter is its residue. */
  const MODULUS := 0x1_0000_0000_0000_0000

  function Wrap(x: int): nat {
    x % MODULUS
  }

  datatype Direction = Upload | Download

  datatype Counters = Counters(upload: nat, download: nat)

  function Of(c: Counters, d: Direction): nat {
    if d == Upload then c.upload else c.download
  }

  function Add(c: Counters, d: Direction, n: nat): Counters {
    if d == Upload then c.(upload := Wrap(c.upload + n)) else c.(download := Wrap(c.download + n))
  }

  /** A callback between its two additions. */
  datatype Callback = Callback(direction: Direction, bytes: nat)

  /** Connection `i` is `conns[i - 1]`: every connection ever tracked, open or closed. */
  datatype State = State(
    nextId: nat,
    totals: Counters,
    conns: seq<Counters>,
    /** Ids that were drawn and are about to be stored. */
    storing: set<nat>,
    /** The ids in the connection table. */
    table: set<nat>,
    inFlight: seq<Callback>,
    /** The ids for which CloseConn returned true. */
    closed: seq<nat>)

  const INITIAL := State(0, Counters(0, 0), [], {}, {}, [], [])

  datatype Event =
    /** `nextID.Add(1)` of a routed connection. */
    | DrawId
    /** `connections.Store` of it. */
    | Store(id: nat)
    /** The first half of a read or write callback of a connection, open or not. */
    | AddToConn(id: nat, direction: Direction, bytes: nat)
    /** The second half of a callback in flight. */
    | AddToTotal(index: nat)
    /** `CloseConn`: succeeds if it finds the id in the table. */
    | CloseConn(id: nat)
    /** `connections.Delete`, by the close callback or by closing all. */
    | Delete(id: nat)

  predicate Enabled(st: State, e: Event) {
    match e
    case DrawId => true
    case Store(id) => id in st.storing
    case AddToConn(id, _, _) => 1 <= id <= |st.conns|
    case AddToTotal(index) => index < |st.inFlight|
    case CloseConn(_) => true
    case Delete(_) => true
  }

  function Next(st: State, e: Event): State
    requires Enabled(st, e)
  {
    match e
    case DrawId =>
      var id := st.nextId + 1;
      st.(nextId := id, conns := st.conns + [Counters(0, 0)], storing := st.storing + {id})
    case Store(id) => st.(table := st.table + {id}, storing := st.storing - {id})
    case AddToConn(id, d, n) =>
      st.(conns := st.conns[id - 1 := Add(st.conns[id - 1], d, n)], inFlight := st.inFlight + [Callback(d, n)])
    case AddToTotal(i) =>
      st.(totals := Add(st.totals, st.inFlight[i].direction, st.inFlight[i].bytes),
          inFlight := st.inFlight[..i] + st.inFlight[i + 1..])
    case CloseConn(id) =>
      if id in st.table then st.(table := st.table - {id}, closed := st.closed + [id]) else st
    case Delete(id) => st.(table := st.table - {id})
  }

  /** Bytes of the connections, and bytes of the callbacks in flight. */
  function ConnBytes(conns: seq<Counters>, d: Direction): nat {
    if conns == [] then 0 else ConnBytes(conns[..|conns| - 1], d) + Of(conns[|conns| - 1], d)
  }

  function InFlightBytes(inFlight: seq<Callback>, d: Direction): nat {
    if inFlight == [] then 0
    else
      var last := inFlight[|inFlight| - 1];
      InFlightBytes(inFlight[..|inFlight| - 1], d) + if last.direction == d then last.bytes else 0
  }

  // ---- Sums ----

  lemma {:induction false} ConnBytesUpdate(conns: seq<Counters>, i: nat, c: Counters, d: Direction)
    requires i < |conns|
    ensures ConnBytes(conns[i := c], d) == ConnBytes(conns, d) - Of(conns[i], d) + Of(c, d)
  {
    var n := |conns| - 1;
    if i < n {
      assert conns[i := c][..n] == conns[..n][i := c];
      ConnBytesUpdate(conns[..n], i, c, d);
    } else {
      assert conns[i := c][..n] == conns[..n];
    }
  }

  lemma {:induction false} InFlightRemove(s: seq<Callback>, i: nat, d: Direction)
    requires i < |s|
    ensures InFlightBytes(s[..i] + s[i + 1..], d) ==
            InFlightBytes(s, d) - if s[i].direction == d then s[i].bytes else 0
  {
    var n := |s| - 1;
    if i < n {
      var rest := s[..i] + s[i + 1..];
      assert rest[..|rest| - 1] == s[..n][..i] + s[..n][i + 1..] && rest[|rest| - 1] == s[n];
      InFlightRemove(s[..n], i, d);
    } else {
      assert s[..i] + s[i + 1..] == s[..n];
    }
  }

  /** Counters are residues: adding wraps by a multiple of the modulus. */
  lemma AddOf(c: Counters, d: Direction, n: nat, other: Direction) returns (k: nat)
    ensures Of(Add(c, d, n), other) == Of(c, other) + (if d == other then n else 0) - MODULUS * k
  {
    k := if d == other then (Of(c, d) + n) / MODULUS else 0;
  }

  lemma SameResidue(x: int, y: int, k: int)
    requires x == y + MODULUS * k
    ensures Wrap(x) == Wrap(y)
  {}

  // ---- The invariant ----

  /** What the total and the callbacks in flight have more than the connections. */
  function Net(st: State, d: Direction): int {
    Of(st.totals, d) + InFlightBytes(st.inFlight, d) - ConnBytes(st.conns, d)
  }

  ghost predicate Balanced(st: State, d: Direction) {
    Wrap(Net(st, d)) == 0
  }

  ghost predicate IdsFresh(st: State) {
    && st.nextId == |st.conns|
    && (forall id | id in st.storing || id in st.table :: 1 <= id <= st.nextId)
    && st.storing !! st.table
    && (forall i | 0 <= i < |st.closed| ::
          1 <= st.closed[i] <= st.nextId && st.closed[i] !in st.table && st.closed[i] !in st.storing)
    && (forall i, j | 0 <= i < j < |st.closed| :: st.closed[i] != st.closed[j])
  }

  ghost predicate Invariant(st: State) {
    IdsFresh(st) && forall d :: Balanced(st, d)
  }

  lemma AddToConnNet(st: State, id: nat, direction: Direction, n: nat, d: Direction) returns (k: int)
    requires Enabled(st, AddToConn(id, direction, n))
    ensures Net(Next(st, AddToConn(id, direction, n)), d) == Net(st, d) + MODULUS * k
  {
    var next := Next(st, AddToConn(id, direction, n));
    assert next.inFlight[..|next.inFlight| - 1] == st.inFlight;
    ConnBytesUpdate(st.conns, id - 1, Add(st.conns[id - 1], direction, n), d);
    k := AddOf(st.conns[id - 1], direction, n, d);
  }

  lemma AddToTotalNet(st: State, i: nat, d: Direction) returns (k: int)
    requires Enabled(st, AddToTotal(i))
    ensures Net(Next(st, AddToTotal(i)), d) == Net(st, d) + MODULUS * k
  {
    InFlightRemove(st.inFlight, i, d);
    k := AddOf(st.totals, st.inFlight[i].direction, st.inFlight[i].bytes, d);
    k := -k;
  }

  /** A step changes the difference by a multiple of the modulus. */
  lemma StepNet(st: State, e: Event, d: Direction) returns (k: int)
    requires Enabled(st, e)
    ensures Net(Next(st, e), d) == Net(st, d) + MODULUS * k
  {
    k := 0;
    match e
    case DrawId =>
      assert Next(st, e).conns[..|Next(st, e).conns| - 1] == st.conns;
    case AddToConn(id, direction, n) =>
      k := AddToConnNet(st, id, direction, n, d);
    case AddToTotal(i) =>
      k := AddToTotalNet(st, i, d);
    case Store(_) =>
    case CloseConn(_) =>
    case Delete(_) =>
  }

  lemma StepKeeps(st: State, e: Event)
    requires Enabled(st, e) && Invariant(st)
    ensures Invariant(Next(st, e))
  {
    forall d ensures Balanced(Next(st, e), d) {
      assert Balanced(st, d);
      var k := StepNet(st, e, d);
      SameResidue(Net(Next(st, e), d), Net(st, d), k);
    }
  }

  // ---- Runs ----

  /** An event that is not enabled does not happen. */
  function Advance(st: State, e: Event): State {
    if Enabled(st, e) then Next(st, e) else st
  }

  /** The state after the events. */
  function Run(events: seq<Event>): State {
    if events == [] then INITIAL else Advance(Run(events[..|events| - 1]), events[|events| - 1])
  }

  lemma InitialInvariant()
    ensures Invariant(INITIAL)
  {
    assert IdsFresh(INITIAL);
    forall d
      ensures Balanced(INITIAL, d)
    {
      assert Net(INITIAL, d) == 0;
      SameResidue(Net(INITIAL, d), 0, 0);
    }
  }

  lemma AdvanceKeeps(st: State, e: Event)
    requires Invariant(st)
    ensures Invariant(Advance(st, e))
  {
    if Enabled(st, e) {
      StepKeeps(st, e);
    }
  }

  lemma {:induction false} RunKeeps(events: seq<Event>)
    ensures Invariant(Run(events))
  {
    if events == [] {
      InitialInvariant();
    } else {
      RunKeeps(events[..|events| - 1]);
      AdvanceKeeps(Run(events[..|events| - 1]), events[|events| - 1]);
    }
  }

  lemma AdvanceStaysResidue(st: State, e: Event, d: Direction)
    requires Of(st.totals, d) < MODULUS
    ensures Of(Advance(st, e).totals, d) < MODULUS
  {}

  lemma {:induction false} TotalsAreResidues(events: seq<Event>, d: Direction)
    ensures Of(Run(events).totals, d) < MODULUS
  {
    if events != [] {
      TotalsAreResidues(events[..|events| - 1], d);
      AdvanceStaysResidue(Run(events[..|events| - 1]), events[|events| - 1], d);
    }
  }

  /** Conservation: at every point of every interleaving the total and the bytes in flight add up to what
      the connections counted, modulo 2^64; with nothing in flight the total is that sum. */
  lemma {:induction false} TrafficConserved(events: seq<Event>, d: Direction)
    ensures var st := Run(events);
            Wrap(Of(st.totals, d) + InFlightBytes(st.inFlight, d)) == Wrap(ConnBytes(st.conns, d))
            && (st.inFlight == [] ==> Of(st.totals, d) == Wrap(ConnBytes(st.conns, d)))
  {
    var st := Run(events);
    RunKeeps(events);
    assert Balanced(st, d);
    SameResidue(Of(st.totals, d) + InFlightBytes(st.inFlight, d), ConnBytes(st.conns, d), Net(st, d) / MODULUS);
    TotalsAreResidues(events, d);
  }

  /** The ids that the events drew, in order: the results of `nextID.Add(1)`. */
  function Drawn(events: seq<Event>): seq<nat> {
    if events == [] then []
    else
      var init := events[..|events| - 1];
      Drawn(init) + if events[|events| - 1].DrawId? then [Run(init).nextId + 1] else []
  }

  /** Over every run the ids drawn are 1, 2, 3 and so on: none is ever used again, closed or deleted or not. */
  lemma {:induction false} DrawnIds(events: seq<Event>)
    ensures |Drawn(events)| == Run(events).nextId
    ensures forall i | 0 <= i < |Drawn(events)| :: Drawn(events)[i] == i + 1
  {
    if events != [] {
      DrawnIds(events[..|events| - 1]);
    }
  }

  /** The next id was never drawn before, every connection in the table has a drawn id, and CloseConn
      succeeds at most once for an id. */
  lemma {:induction false} IdsAreUnique(events: seq<Event>)
    ensures var st := Run(events);
            st.nextId + 1 !in Drawn(events)
            && (forall id | id in st.table || id in st.storing || id in st.closed :: id in Drawn(events))
            && (forall i, j | 0 <= i < j < |st.closed| :: st.closed[i] != st.closed[j])
            && forall id | id in st.closed :: Next(st, CloseConn(id)) == st
  {
    RunKeeps(events);
    DrawnIds(events);
    var st := Run(events);
    forall id | id in st.table || id in st.storing || id in st.closed
      ensures id in Drawn(events)
    {
      assert Drawn(events)[id - 1] == id;
    }
  }
}
