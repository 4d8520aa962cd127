/** The timeline component's view-state controller: the visible time window,
    the zoom/pan transform applied to it, the drag protocol over pointer
    events, the move proposed for a dragged item, and which items are drawn.

    Times are integer milliseconds; pointer coordinates, zoom factors and the
    canvas width are reals (the source's doubles, without rounding error).
    Each `setState` is a synchronous assignment of the named fields. */
module TimelineComponent {
  import opened DateHelper

  /** Default lower bound of the window length: one hour. */
  const DefaultMinZoom: int := 60 * 60 * 1000
  /** Default upper bound of the window length: 365 days. */
  const DefaultMaxZoom: int := 365 * 86400 * 1000

  /** The unit the component draws and snaps to; the unit choice is fixed. */
  const TimelineUnit: Unit := "day"

  datatype Option<T> = None | Some(value: T)

  /** An item of the timeline; `start` and `end` are instants. */
  datatype Item = Item(id: int, start: int, end: int)

  /** The argument of the item-moved callback. */
  datatype Move = Move(id: int, start: int, end: int)

  /** What releasing the pointer did with the item-moved callback. */
  datatype ItemMovedCall =
    | NotCalled
    | Called(move: Move)
      /** An item was active but no callback was supplied: the call throws. */
    | CallbackMissing

  function Min(a: int, b: int): int { if a <= b then a else b }
  function Max(a: int, b: int): int { if a >= b then a else b }
  function Dist(a: real, b: real): real { if a <= b then b - a else a - b }

  /** The language's round-half-up to an integer. */
  function Round(x: real): (r: int)
    ensures x - 0.5 < r as real <= x + 0.5
  {
    (x + 0.5).Floor
  }

  /** The instant a date object holds when built from a fractional millisecond
      count: the fraction is dropped, toward zero. */
  function TimeValue(x: real): (r: int)
    ensures 0.0 <= x ==> r as real <= x < r as real + 1.0
    ensures x < 0.0 ==> r as real - 1.0 < x <= r as real
  {
    if x >= 0.0 then x.Floor else -((-x).Floor)
  }

  // ---------------------------------------------------------------------------
  // Zoom and pan

  /** The new window length: the old one scaled and rounded, then raised to
      `minZoom` and finally lowered to `maxZoom`. */
  function ZoomedDelta(timeDelta: int, scale: real, minZoom: int, maxZoom: int): (d: int)
    ensures d <= maxZoom
    ensures minZoom <= maxZoom ==> minZoom <= d
    ensures minZoom > maxZoom ==> d == maxZoom
  {
    Min(Max(Round(timeDelta as real * scale), minZoom), maxZoom)
  }

  /** With consistent bounds, the new length is the admissible length nearest
      to the scaled one: clamping moves it no further than it must. */
  lemma ZoomedDeltaNearest(timeDelta: int, scale: real, minZoom: int, maxZoom: int, z: int)
    requires minZoom <= z <= maxZoom
    ensures var raw := Round(timeDelta as real * scale);
      Dist(ZoomedDelta(timeDelta, scale, minZoom, maxZoom) as real, raw as real) <= Dist(z as real, raw as real)
  {
  }

  /** The new window start. The instant at fraction `offset` of the window
      (the pointer's position) stays where it was, shifted by `moveOffset`
      windows, up to the rounding to a whole millisecond. */
  function ZoomedStart(timeStart: int, timeDelta: int, newDelta: int, offset: real, moveOffset: real): (s: int)
    ensures Dist(s as real + newDelta as real * offset,
                 timeStart as real + timeDelta as real * offset + newDelta as real * moveOffset) <= 0.5
  {
    var anchorBefore := timeStart as real + timeDelta as real * offset;
    var unrounded := timeStart as real + (timeDelta - newDelta) as real * offset + newDelta as real * moveOffset;
    assert unrounded + newDelta as real * offset == anchorBefore + newDelta as real * moveOffset;
    Round(unrounded)
  }

  /** A zoom by factor 1 without panning, from a length already within the
      bounds, keeps the window as it is (wherever the pointer is). */
  lemma ZoomIdentity(timeStart: int, timeDelta: int, minZoom: int, maxZoom: int, offset: real)
    requires minZoom <= timeDelta <= maxZoom
    ensures ZoomedDelta(timeDelta, 1.0, minZoom, maxZoom) == timeDelta
    ensures ZoomedStart(timeStart, timeDelta, timeDelta, offset, 0.0) == timeStart
  {
  }

  // ---------------------------------------------------------------------------
  // Dragging an item

  /** The instant the dragged item's start has been carried to: its start plus
      the pointer offset converted from pixels to milliseconds. */
  function DragTarget(item: Item, timeDelta: int, mouseOffsetX: real, canvasWidth: real): real
    requires canvasWidth > 0.0
  {
    item.start as real + timeDelta as real * mouseOffsetX / canvasWidth
  }

  /** The move proposed for a dragged item: its start snapped to the start of
      the timeline's unit, its end chosen to keep the item's duration. */
  function ProposeMove(cal: Calendar, item: Item, timeDelta: int, mouseOffsetX: real, canvasWidth: real): (m: Move)
    requires canvasWidth > 0.0
    ensures m.id == item.id
    ensures m.end - m.start == item.end - item.start
    ensures Floors(cal, TimelineUnit) ==> m.start <= TimeValue(DragTarget(item, timeDelta, mouseOffsetX, canvasWidth))
  {
    var start := cal.startOf(TimeValue(DragTarget(item, timeDelta, mouseOffsetX, canvasWidth)), TimelineUnit);
    Move(item.id, start, item.end - item.start + start)
  }

  /** Without pointer movement a dragged item is proposed where it already is,
      provided its start is already on a unit boundary. */
  lemma ProposeMoveStill(cal: Calendar, item: Item, timeDelta: int, canvasWidth: real)
    requires canvasWidth > 0.0
    requires cal.startOf(item.start, TimelineUnit) == item.start
    ensures ProposeMove(cal, item, timeDelta, 0.0, canvasWidth) == Move(item.id, item.start, item.end)
  {
    assert DragTarget(item, timeDelta, 0.0, canvasWidth) == item.start as real;
    assert TimeValue(item.start as real) == item.start;
  }

  /** The start at which an item is drawn: the active item is previewed where
      releasing the pointer would propose it; every other item at its start. */
  function DisplayedStart(cal: Calendar, item: Item, activeItem: Option<Item>,
                          timeDelta: int, mouseOffsetX: real, canvasWidth: real): (s: int)
    requires activeItem == Some(item) ==> canvasWidth > 0.0
    ensures activeItem == Some(item) ==> s == ProposeMove(cal, item, timeDelta, mouseOffsetX, canvasWidth).start
    ensures activeItem != Some(item) ==> s == item.start
  {
    if activeItem.Some? && item == activeItem.value then
      cal.startOf(TimeValue(DragTarget(item, timeDelta, mouseOffsetX, canvasWidth)), TimelineUnit)
    else
      item.start
  }

  // ---------------------------------------------------------------------------
  // Which items are drawn

  /** An item overlaps the open window (timeStart, timeEnd). */
  predicate Overlaps(item: Item, timeStart: int, timeEnd: int)
  {
    item.start < timeEnd && item.end > timeStart
  }

  /** The items drawn for a window, in their given order. */
  function Visible(items: seq<Item>, timeStart: int, timeEnd: int): (r: seq<Item>)
    ensures |r| <= |items|
  {
    if items == [] then []
    else if Overlaps(items[0], timeStart, timeEnd) then [items[0]] + Visible(items[1..], timeStart, timeEnd)
    else Visible(items[1..], timeStart, timeEnd)
  }

  /** An item is drawn if and only if it is one of the items and overlaps the window. */
  lemma {:induction false} VisibleMembers(items: seq<Item>, timeStart: int, timeEnd: int, x: Item)
    ensures x in Visible(items, timeStart, timeEnd) <==> x in items && Overlaps(x, timeStart, timeEnd)
  {
    if items != [] {
      VisibleMembers(items[1..], timeStart, timeEnd, x);
      assert items == [items[0]] + items[1..];
    }
  }

  /** Filtering a concatenation filters each part and keeps them in order, so
      the drawn items appear in the order they were given. */
  lemma {:induction false} VisibleAppend(a: seq<Item>, b: seq<Item>, timeStart: int, timeEnd: int)
    ensures Visible(a + b, timeStart, timeEnd) == Visible(a, timeStart, timeEnd) + Visible(b, timeStart, timeEnd)
  {
    if a != [] {
      assert (a + b)[1..] == a[1..] + b;
      VisibleAppend(a[1..], b, timeStart, timeEnd);
    } else {
      assert a + b == b;
    }
  }

  /** When every item overlaps the window, all of them are drawn, in order. */
  lemma {:induction false} VisibleKeepsAll(items: seq<Item>, timeStart: int, timeEnd: int)
    requires forall i :: 0 <= i < |items| ==> Overlaps(items[i], timeStart, timeEnd)
    ensures Visible(items, timeStart, timeEnd) == items
  {
    if items != [] {
      VisibleKeepsAll(items[1..], timeStart, timeEnd);
    }
  }

  // ---------------------------------------------------------------------------
  // The component's state and its event handlers

  class Timeline {
    /** The date library used for snapping. */
    const cal: Calendar
    /** Configured bounds of the window length. */
    const minZoom: int
    const maxZoom: int
    /** Whether the owner supplied the item-moved callback. */
    const onItemMovedGiven: bool

    var timeStart: int
    var timeEnd: int
    var timeDelta: int
    var canvasWidth: real
    var dragging: bool
    var mouseStartX: real
    var mouseOffsetX: real
    var activeItem: Option<Item>

    /** The window's end is its start plus its length. */
    ghost predicate Valid()
      reads this
    {
      timeEnd == timeStart + timeDelta
    }

    /** The initial state: the configured window, no width yet, no drag. */
    constructor (cal: Calendar, start: int, end: int, minZoom: int, maxZoom: int, onItemMovedGiven: bool)
      ensures Valid()
      ensures this.cal == cal && this.minZoom == minZoom && this.maxZoom == maxZoom
      ensures this.onItemMovedGiven == onItemMovedGiven
      ensures timeStart == start && timeEnd == end && timeDelta == end - start
      ensures canvasWidth == 0.0 && !dragging && mouseStartX == 0.0 && mouseOffsetX == 0.0
      ensures activeItem == None
    {
      this.cal := cal;
      this.minZoom := minZoom;
      this.maxZoom := maxZoom;
      this.onItemMovedGiven := onItemMovedGiven;
      timeStart := start;
      timeEnd := end;
      timeDelta := end - start;
      canvasWidth := 0.0;
      dragging := false;
      mouseStartX := 0.0;
      mouseOffsetX := 0.0;
      activeItem := None;
    }

    /** The items drawn in the current window. */
    function VisibleItems(items: seq<Item>): (r: seq<Item>)
      reads this
      ensures forall x :: x in r <==> x in items && x.start < timeEnd && x.end > timeStart
    {
      var r := Visible(items, timeStart, timeEnd);
      assert forall x :: x in r <==> x in items && Overlaps(x, timeStart, timeEnd) by {
        forall x ensures x in r <==> x in items && Overlaps(x, timeStart, timeEnd) {
          VisibleMembers(items, timeStart, timeEnd, x);
        }
      }
      r
    }

    /** The header's unit ticks for the current window: they start at the
        unit start of the window's start, chain without gaps, and reach the
        window's end. */
    method HeaderTicks() returns (ticks: seq<Tick>)
      requires Advances(cal, TimelineUnit)
      ensures Tiling(ticks, cal.startOf(timeStart, TimelineUnit), timeEnd)
      ensures forall i :: 0 <= i < |ticks| ==> ticks[i].next == cal.add(ticks[i].current, 1, TimelineUnit)
    {
      ticks := Iterator(cal, timeStart, timeEnd, TimelineUnit);
    }

    /** Rescale the window by `scale` around the fraction `offset` of its
        length, clamp the length to the bounds, and pan by `moveOffset`
        windows. Only the window changes. */
    method ZoomAndMove(scale: real, offset: real, moveOffset: real)
      requires Valid()
      modifies this`timeStart, this`timeEnd, this`timeDelta
      ensures Valid()
      ensures timeDelta == ZoomedDelta(old(timeDelta), scale, minZoom, maxZoom)
      ensures timeDelta <= maxZoom && (minZoom <= maxZoom ==> minZoom <= timeDelta)
      ensures timeStart == ZoomedStart(old(timeStart), old(timeDelta), timeDelta, offset, moveOffset)
    {
      var newTimeDelta := ZoomedDelta(timeDelta, scale, minZoom, maxZoom);
      var start := ZoomedStart(timeStart, timeDelta, newTimeDelta, offset, moveOffset);
      timeStart := start;
      timeEnd := start + newTimeDelta;
      timeDelta := newTimeDelta;
    }

    /** A wheel turn: vertical motion zooms (four times faster with the
        control key), horizontal motion pans; `offsetX` is the pointer's
        position within the canvas. */
    method HandleWheel(offsetX: real, deltaX: real, deltaY: real, ctrlKey: bool)
      requires Valid()
      requires canvasWidth > 0.0
      modifies this`timeStart, this`timeEnd, this`timeDelta
      ensures Valid()
      ensures var speed := if ctrlKey then 4.0 else 1.0;
        timeDelta == ZoomedDelta(old(timeDelta), 1.0 + speed * deltaY / 500.0, minZoom, maxZoom)
      ensures timeStart == ZoomedStart(old(timeStart), old(timeDelta), timeDelta, offsetX / canvasWidth, deltaX / canvasWidth)
    {
      var speed := if ctrlKey then 4.0 else 1.0;
      ZoomAndMove(1.0 + speed * deltaY / 500.0, offsetX / canvasWidth, deltaX / canvasWidth);
    }

    /** The canvas was measured at `width` pixels. */
    method Resize(width: real)
      modifies this`canvasWidth
      ensures canvasWidth == width
    {
      canvasWidth := width;
    }

    /** Pointer pressed: a drag starts at `pageX`. The active item and the
        window are left alone. */
    method HandleMouseDown(pageX: real)
      modifies this`dragging, this`mouseStartX, this`mouseOffsetX
      ensures dragging && mouseStartX == pageX && mouseOffsetX == 0.0
    {
      dragging := true;
      mouseStartX := pageX;
      mouseOffsetX := 0.0;
    }

    /** Pointer moved: during a drag, record how far it is from where the drag
        started; outside a drag, nothing changes. */
    method HandleMouseMove(pageX: real)
      modifies this`mouseOffsetX
      ensures dragging ==> mouseOffsetX == pageX - mouseStartX
      ensures !dragging ==> mouseOffsetX == old(mouseOffsetX)
    {
      if !dragging {
        return;
      }
      mouseOffsetX := pageX - mouseStartX;
    }

    /** Pointer released: if an item was being dragged, propose its move to
        the owner exactly once; then end the drag and forget the item. When
        an item is active and the owner gave no callback, the call throws and
        nothing is cleared. */
    method HandleMouseUp() returns (call: ItemMovedCall)
      requires activeItem.Some? ==> canvasWidth > 0.0
      modifies this`dragging, this`activeItem
      ensures old(activeItem) == None ==> call == NotCalled
      ensures old(activeItem).Some? && onItemMovedGiven ==>
        call == Called(ProposeMove(cal, old(activeItem).value, timeDelta, mouseOffsetX, canvasWidth))
      ensures old(activeItem).Some? && !onItemMovedGiven ==> call == CallbackMissing
      ensures call != CallbackMissing ==> !dragging && activeItem == None
      ensures call == CallbackMissing ==> dragging == old(dragging) && activeItem == old(activeItem)
    {
      if activeItem.Some? {
        if !onItemMovedGiven {
          return CallbackMissing;
        }
        call := Called(ProposeMove(cal, activeItem.value, timeDelta, mouseOffsetX, canvasWidth));
      } else {
        call := NotCalled;
      }
      dragging := false;
      activeItem := None;
    }

    /** An item was pressed: it becomes the active item. */
    method HandleItemInteract(item: Item)
      modifies this`activeItem
      ensures activeItem == Some(item)
    {
      activeItem := Some(item);
    }
  }

  /** A whole drag of one item: the canvas is measured, the item is pressed
      (its handler runs before the canvas's), the pointer goes down at
      `downX`, moves to `upX` and is released. The owner is told once, with
      the item's start carried by the pointer's travel and its duration kept. */
  method DragAndRelease(cal: Calendar, start: int, end: int, width: real, item: Item, downX: real, upX: real)
    returns (call: ItemMovedCall)
    requires width > 0.0
    ensures call == Called(ProposeMove(cal, item, end - start, upX - downX, width))
    ensures call.move.id == item.id && call.move.end - call.move.start == item.end - item.start
  {
    var timeline := new Timeline(cal, start, end, DefaultMinZoom, DefaultMaxZoom, true);
    timeline.Resize(width);
    timeline.HandleItemInteract(item);
    timeline.HandleMouseDown(downX);
    timeline.HandleMouseMove(upX);
    call := timeline.HandleMouseUp();
  }
}
