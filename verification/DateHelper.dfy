/** Calendar-unit helpers of the timeline: the two date-library wrappers and the
    generator that walks unit boundaries across a time window.

    Instants are integer milliseconds. The date library itself is not modelled:
    its two operations are carried as functions in a `Calendar` value, and what
    the generator needs of them is stated as the predicates `Advances` and
    `Floors`, which callers supply as preconditions. */
module DateHelper {

  /** A calendar unit as the date library names it ("day", "hour", ...). */
  type Unit = string

  /** The date library's `add(datetime, amount, unit)` and `startOf(datetime, unit)`,
      both on instants in milliseconds. */
  datatype Calendar = Calendar(add: (int, int, Unit) -> int, startOf: (int, Unit) -> int)

  /** Adding one unit always moves strictly forward in time. */
  ghost predicate Advances(cal: Calendar, unit: Unit)
  {
    forall c :: cal.add(c, 1, unit) > c
  }

  /** The start of the unit containing an instant is never after that instant. */
  ghost predicate Floors(cal: Calendar, unit: Unit)
  {
    forall x :: cal.startOf(x, unit) <= x
  }

  /** Milliseconds in a day without daylight-saving shifts. */
  const DayLength: int := 86400000

  /** The date library's day arithmetic in UTC: `startOf` rounds down to a
      midnight and `add` moves by whole days, whatever unit name is passed.
      It shows that the assumptions the generator makes can be met. */
  function UtcDayCalendar(): (cal: Calendar)
    ensures forall x, u :: cal.startOf(x, u) % DayLength == 0 && x - DayLength < cal.startOf(x, u) <= x
    ensures forall u :: Advances(cal, u) && Floors(cal, u)
  {
    Calendar((c, n, u) => c + n * DayLength, (x, u) => x - x % DayLength)
  }

  /** One yielded pair: a unit boundary and the next one. */
  datatype Tick = Tick(current: int, next: int)

  /** Consecutive ticks share their boundary, and every tick is a non-empty span. */
  predicate Chained(ticks: seq<Tick>)
  {
    && (forall i :: 0 <= i < |ticks| ==> ticks[i].current < ticks[i].next)
    && (forall i :: 0 < i < |ticks| ==> ticks[i - 1].next == ticks[i].current)
  }

  /** `ticks` tiles the interval [from, end): nothing when the interval is
      empty, otherwise chained spans starting at `from`, each starting before
      `end`, the last one reaching `end`. */
  predicate Tiling(ticks: seq<Tick>, from: int, end: int)
  {
    && Chained(ticks)
    && (ticks == [] <==> from >= end)
    && (ticks != [] ==> ticks[0].current == from && ticks[|ticks| - 1].next >= end)
    && (forall i :: 0 <= i < |ticks| ==> ticks[i].current < end)
  }

  /** Tick `i` contains the instant `t`. */
  predicate Covers(ticks: seq<Tick>, i: int, t: int)
  {
    0 <= i < |ticks| && ticks[i].current <= t < ticks[i].next
  }

  /** The generator: starting at the unit start of `start`, yield each boundary
      with the boundary one unit later, for as long as the boundary is before
      `end`. */
  method Iterator(cal: Calendar, start: int, end: int, unit: Unit) returns (ticks: seq<Tick>)
    requires Advances(cal, unit)
    ensures Tiling(ticks, cal.startOf(start, unit), end)
    ensures forall i :: 0 <= i < |ticks| ==> ticks[i].next == cal.add(ticks[i].current, 1, unit)
  {
    var current := cal.startOf(start, unit);
    ticks := [];
    while current < end
      invariant ticks == [] ==> current == cal.startOf(start, unit)
      invariant ticks != [] ==> ticks[0].current == cal.startOf(start, unit)
      invariant ticks != [] ==> ticks[|ticks| - 1].next == current
      invariant Chained(ticks)
      invariant forall i :: 0 <= i < |ticks| ==> ticks[i].current < end
      invariant forall i :: 0 <= i < |ticks| ==> ticks[i].next == cal.add(ticks[i].current, 1, unit)
      decreases end - current
    {
      var next := cal.add(current, 1, unit);
      ticks := ticks + [Tick(current, next)];
      current := next;
    }
  }

  /** In a chain, a later tick starts no earlier than an earlier tick ends. */
  lemma {:induction false} ChainedOrdered(ticks: seq<Tick>, i: int, j: int)
    requires Chained(ticks)
    requires 0 <= i < j < |ticks|
    ensures ticks[i].next <= ticks[j].current
  {
    if j > i + 1 {
      ChainedOrdered(ticks, i, j - 1);
    }
  }

  /** The boundaries of a chain are strictly increasing. */
  lemma ChainedIncreasing(ticks: seq<Tick>, i: int, j: int)
    requires Chained(ticks)
    requires 0 <= i < j < |ticks|
    ensures ticks[i].current < ticks[j].current
  {
    ChainedOrdered(ticks, i, j);
  }

  /** Every instant between the first boundary and the last end lies in some tick. */
  lemma {:induction false} ChainedCovers(ticks: seq<Tick>, t: int) returns (i: int)
    requires Chained(ticks)
    requires ticks != [] && ticks[0].current <= t < ticks[|ticks| - 1].next
    ensures Covers(ticks, i, t)
  {
    if t < ticks[0].next {
      i := 0;
    } else {
      var k := ChainedCovers(ticks[1..], t);
      i := k + 1;
    }
  }

  /** No instant lies in two ticks. */
  lemma ChainedCoversOnce(ticks: seq<Tick>, t: int, i: int, j: int)
    requires Chained(ticks)
    requires Covers(ticks, i, t) && Covers(ticks, j, t)
    ensures i == j
  {
    if i < j {
      ChainedOrdered(ticks, i, j);
    } else if j < i {
      ChainedOrdered(ticks, j, i);
    }
  }

  /** The ticks of a tiling cover [from, end) with neither gaps nor overlaps:
      every instant of the interval lies in exactly one tick. */
  lemma TilingPartitions(ticks: seq<Tick>, from: int, end: int, t: int)
    requires Tiling(ticks, from, end)
    requires from <= t < end
    ensures exists i :: Covers(ticks, i, t) && forall j :: Covers(ticks, j, t) ==> j == i
  {
    var i := ChainedCovers(ticks, t);
    forall j | Covers(ticks, j, t)
      ensures j == i
    {
      ChainedCoversOnce(ticks, t, i, j);
    }
  }

  /** Since the first boundary is the unit start of `start`, the generated ticks
      cover the requested window [start, end), each of its instants exactly once. */
  lemma IteratorCoversWindow(cal: Calendar, start: int, end: int, unit: Unit, ticks: seq<Tick>, t: int)
    requires Floors(cal, unit)
    requires Tiling(ticks, cal.startOf(start, unit), end)
    requires start <= t < end
    ensures exists i :: Covers(ticks, i, t) && forall j :: Covers(ticks, j, t) ==> j == i
  {
    TilingPartitions(ticks, cal.startOf(start, unit), end, t);
  }
}
