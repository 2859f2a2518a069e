/** The ring buffer behind the traffic chart: it refines the plain history of everything added. */
module TrafficHistory {

  datatype Point = Point(timestamp: int, uploadBytes: int, downloadBytes: int)

  const DEFAULT_LIMIT := 600

  /** The last `n` points of a history. */
  function LastOf(history: seq<Point>, n: nat): seq<Point> {
    if |history| <= n then history else history[|history| - n..]
  }

  class TrafficHistoryBuffer {
    const points: array<Point>
    var next: nat
    var full: bool
    const limit: nat
    /** Everything that was ever added. */
    ghost var history: seq<Point>

    ghost predicate Valid()
      reads this, points
    {
      && 0 < limit == points.Length && next < limit
      && (if full then |history| >= limit && Rotated(points[..], next) == LastOf(history, limit)
          else next == |history| && points[..next] == history)
    }

    constructor (limit: int)
      ensures Valid() && history == [] && fresh(points)
      ensures this.limit == if limit <= 0 then DEFAULT_LIMIT else limit
    {
      var size: nat := if limit <= 0 then DEFAULT_LIMIT else limit;
      this.limit := size;
      points := new Point[size](_ => Point(0, 0, 0));
      next, full, history := 0, false, [];
    }

    method Add(point: Point)
      requires Valid()
      modifies this, points
      ensures Valid() && history == old(history) + [point]
    {
      ghost var before := points[..];
      points[next] := point;
      assert points[..] == before[next := point];
      NextIndex(next, limit);
      RotateStep(before, next, point);
      if full {
        WindowStep(history, point, limit);
      } else {
        assert before[..next] + [point] == points[..next + 1];
      }
      next := (next + 1) % limit;
      if next == 0 {
        full := true;
      }
      history := history + [point];
    }

    /** The points still held, oldest first. */
    method Snapshot() returns (result: seq<Point>)
      requires Valid()
      ensures result == LastOf(history, limit)
    {
      if !full && next == 0 {
        return [];
      }
      if !full {
        return points[..next];
      }
      return points[next..] + points[..next];
    }
  }

  lemma NextIndex(next: nat, limit: nat)
    requires next < limit
    ensures (next + 1) % limit == if next + 1 == limit then 0 else next + 1
  {}

  /** The contents in the order in which they were added, read from the slot that is overwritten next. */
  function Rotated(points: seq<Point>, next: nat): seq<Point>
    requires next <= |points|
  {
    points[next..] + points[..next]
  }

  /** Overwriting the oldest slot moves the window on by one. */
  lemma RotateStep(points: seq<Point>, next: nat, point: Point)
    requires next < |points|
    ensures var after := if next + 1 == |points| then 0 else next + 1;
            Rotated(points[next := point], after) == Rotated(points, next)[1..] + [point]
  {
    var updated := points[next := point];
    assert updated[..next] == points[..next] && updated[next + 1..] == points[next + 1..];
    assert Rotated(points, next)[1..] == points[next + 1..] + points[..next];
    if next + 1 < |points| {
      assert updated[..next + 1] == points[..next] + [point];
    } else {
      assert updated == points[..next] + [point];
    }
  }

  lemma WindowStep(history: seq<Point>, point: Point, limit: nat)
    requires 0 < limit <= |history|
    ensures LastOf(history + [point], limit) == LastOf(history, limit)[1..] + [point]
  {}

  /** Adding a whole sequence of points to a new buffer: the snapshot is its last `limit` points. */
  method AddAll(limit: int, added: seq<Point>) returns (snapshot: seq<Point>)
    ensures snapshot == LastOf(added, if limit <= 0 then DEFAULT_LIMIT else limit)
  {
    var buffer := new TrafficHistoryBuffer(limit);
    for i := 0 to |added|
      invariant buffer.Valid() && buffer.history == added[..i] && fresh(buffer) && fresh(buffer.points)
    {
      buffer.Add(added[i]);
      assert added[..i + 1] == added[..i] + [added[i]];
    }
    assert added[..|added|] == added;
    snapshot := buffer.Snapshot();
  }
}
