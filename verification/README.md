# Timeline view-state controller and tick generator, in Dafny

This project models the logic of a React timeline widget. The widget draws a
horizontal time axis with unit-aligned period labels and item blocks. The
user can zoom and pan it with the wheel and drag items to new positions.
Two pieces carry that logic, and both are modelled here.

- `DateHelper` (`DateHelper.dfy`) models `src/helpers/DateHelper.js`. The
  date library's `add` and `startOf` become the two fields of a `Calendar`
  value over integer milliseconds. The generator `iterator` becomes the
  method `Iterator`: a loop that walks unit boundaries from the unit start
  of `start` until it reaches `end` and collects `(current, next)` ticks.
  What the generator needs from the date library is stated as two
  predicates, which callers pass as preconditions:
  - `Advances`: adding one unit moves strictly forward. The loop's
    termination rests on it.
  - `Floors`: the unit start of an instant is never after that instant.
    Coverage of the requested window rests on it.

  `UtcDayCalendar` is a concrete calendar (UTC days) that meets both
  predicates, which shows they can hold together. The tiling lemmas prove
  that the ticks cover the window with neither gaps nor overlaps.
- `TimelineComponent` (`Timeline.dfy`) models `src/Timeline.js`.
  - The component's state is the class `Timeline`, with the fields of the
    source's `this.state`. The props the logic reads are `const` fields.
  - Each event handler is a method whose `modifies` clause names exactly
    the fields its `setState` writes.
  - The arithmetic is pure functions: the zoomed length and start, the
    proposed move of a dragged item, the preview position, and the
    visibility filter. Each handler's contract is stated in terms of these
    functions.
  - The invariant `Valid()` says `timeEnd == timeStart + timeDelta`. The
    constructor establishes it and `ZoomAndMove` keeps it. No other handler
    may write those three fields.

Modelling choices:

- Pixel quantities, zoom factors and the canvas width are reals.
- `Math.round` is `Round`, that is `Floor(x + 0.5)`.
- A date built from a fractional millisecond count drops the fraction
  toward zero. `TimeValue` models this.
- The unit is the constant `TimelineUnit == "day"`, because `getUnit`
  always returns `'day'`.
- The wheel handler's DOM reads become parameters: the pointer's offset
  inside the canvas, and `deltaX`, `deltaY` and `ctrlKey`.
- The canvas measurement becomes the parameter of `Resize`.

Behaviour of the code the model keeps:

- `getUnit` always returns `'day'`, so every tick and every snap uses days.
- The constructor accepts any `start` and `end`. Only `zoomAndMove` clamps
  the window length.
- When `minZoom > maxZoom`, the outer `Math.min` wins and the length
  becomes `maxZoom`.
- `onItemMoved` is an optional prop with no default. When an item is active
  and no callback was supplied, `handleMouseUp` throws before its
  `setState`, so the drag is not cleared. `HandleMouseUp` models this as
  the outcome `CallbackMissing`.

## Model

| member | source | states |
|---|---|---|
| `DateHelper.UtcDayCalendar` | src/helpers/DateHelper.js:4-10 | a day calendar whose unit start is a multiple of a day and at most a day before the instant; it satisfies both `Advances` and `Floors` |
| `DateHelper.Iterator` | src/helpers/DateHelper.js:12-25 | the yielded ticks tile [startOf(start), end): none when startOf(start) >= end; otherwise the first `current` is startOf(start), each `next` is add(current, 1), each `current` is before `end`, consecutive ticks share their boundary, and the last `next` reaches `end`; the loop terminates when `add` advances |
| `DateHelper.ChainedOrdered` | src/helpers/DateHelper.js:15-23 | in the chain the loop builds, a later tick starts no earlier than any earlier tick ends, so ticks never overlap |
| `DateHelper.ChainedIncreasing` | src/helpers/DateHelper.js:15-23 | the yielded `current` values are strictly increasing |
| `DateHelper.ChainedCovers` | src/helpers/DateHelper.js:15-23 | every instant from the first `current` up to the last `next` lies in some yielded tick (no gaps) |
| `DateHelper.ChainedCoversOnce` | src/helpers/DateHelper.js:15-23 | no instant lies in two yielded ticks |
| `DateHelper.TilingPartitions` | src/helpers/DateHelper.js:12-25 | every instant of [startOf(start), end) lies in exactly one tick of a tiling |
| `DateHelper.IteratorCoversWindow` | src/helpers/DateHelper.js:12-25 | when the unit start is never after its instant, every instant of the requested window [start, end) lies in exactly one generated tick |
| `TimelineComponent.Round` | src/Timeline.js:136 | rounding to the nearest integer, halves upward: the result lies in (x - 1/2, x + 1/2] |
| `TimelineComponent.TimeValue` | src/Timeline.js:120 | the millisecond instant a date built from a fractional count holds: the count truncated toward zero |
| `TimelineComponent.ZoomedDelta` | src/Timeline.js:135-138 | the new window length is at most `maxZoom`, at least `minZoom` when `minZoom <= maxZoom`, and exactly `maxZoom` when the bounds are crossed |
| `TimelineComponent.ZoomedDeltaNearest` | src/Timeline.js:135-138 | the new length is the admissible length nearest to the scaled, rounded one |
| `TimelineComponent.ZoomedStart` | src/Timeline.js:139 | the instant under the pointer (fraction `offset` of the window) stays in place, shifted by `moveOffset` windows of the new length, to within half a millisecond |
| `TimelineComponent.ZoomIdentity` | src/Timeline.js:135-139 | scale 1 and no pan, from a length already within the bounds, leave the window's length and start unchanged, wherever the pointer is |
| `TimelineComponent.ProposeMove` | src/Timeline.js:117-127 | the proposed move carries the item's id, keeps its duration (end - start), and starts no later than the instant the drag carried the start to |
| `TimelineComponent.ProposeMoveStill` | src/Timeline.js:120-121 | with zero pointer offset, an item already on a unit boundary is proposed exactly where it is |
| `TimelineComponent.DisplayedStart` | src/Timeline.js:99-102 | the active item is previewed at the start its release would propose; every other item at its own start |
| `TimelineComponent.Visible` | src/Timeline.js:96 | the filter never yields more items than it is given |
| `TimelineComponent.VisibleMembers` | src/Timeline.js:96 | an item is drawn if and only if it is one of the items and start < timeEnd and end > timeStart |
| `TimelineComponent.VisibleAppend` | src/Timeline.js:96-98 | filtering a concatenation concatenates the filtered parts, so the drawn items keep the input order |
| `TimelineComponent.VisibleKeepsAll` | src/Timeline.js:96 | when every item overlaps the window, the drawn list is the input list itself |
| `TimelineComponent.Timeline.constructor` | src/Timeline.js:24-43 | the initial state: the configured window with `timeDelta == end - start` (so `Valid()`), width 0, no drag, offsets 0, no active item |
| `TimelineComponent.Timeline.VisibleItems` | src/Timeline.js:91-96 | the items drawn for the current window are exactly those overlapping it |
| `TimelineComponent.Timeline.HeaderTicks` | src/Timeline.js:67-73 | the header's ticks for the current window tile [startOf(timeStart), timeEnd), one unit each |
| `TimelineComponent.Timeline.ZoomAndMove` | src/Timeline.js:132-146 | only the window changes: the length becomes the clamped zoomed length, so it is within [minZoom, maxZoom] when those bounds are consistent; the start moves by the pointer-anchored rule; `timeEnd == timeStart + timeDelta` is kept |
| `TimelineComponent.Timeline.HandleWheel` | src/Timeline.js:162-175 | a wheel turn zooms by 1 + speed * deltaY / 500 (speed 4 with the control key, else 1) around the pointer and pans by deltaX pixels, through `ZoomAndMove` |
| `TimelineComponent.Timeline.Resize` | src/Timeline.js:148-154 | only the canvas width changes, to the measured width |
| `TimelineComponent.Timeline.HandleMouseDown` | src/Timeline.js:177-183 | a drag starts: `dragging` is set, the start x recorded, the offset reset to 0; the active item and the window are untouched |
| `TimelineComponent.Timeline.HandleMouseMove` | src/Timeline.js:185-195 | outside a drag nothing changes; during a drag only `mouseOffsetX` changes, to pageX - mouseStartX |
| `TimelineComponent.Timeline.HandleMouseUp` | src/Timeline.js:197-206 | the item-moved callback is called exactly once, with the proposed move, when an item was active, and never otherwise; afterwards the drag is over and no item is active, unless an active item met a missing callback (the call throws and nothing is cleared) |
| `TimelineComponent.Timeline.HandleItemInteract` | src/Timeline.js:208-212 | only the active item changes, to the pressed item |
| `TimelineComponent.DragAndRelease` | src/Timeline.js:177-212 | a whole drag (measure, press item, pointer down, move, up) calls the callback once, with the item's id, its start carried by the pointer's travel and snapped, and its duration kept |

## Left out

- Rendering is not modelled: `render`, the JSX elements and their CSS classes, and the `'D.MM'` labels. This is presentation only.
- Pixel placement is not modelled: the header cells' `left`/`width` (src/Timeline.js:74-76) and the item blocks' `position`/`width` (src/Timeline.js:109-110). This is presentation; the starts they are computed from are modelled.
- The presentational components (`Item`, `PeriodItem`, `CategoryLine`, `HeaderItem`) are not modelled, because they hold no logic. `Item.handleMouseDown` only forwards its item, which `HandleItemInteract` receives.
- Item titles, types and categories are omitted. Only `id`, `start` and `end` enter the logic.
- The date library's calendar arithmetic is abstract: time zones, daylight saving and month lengths are not modelled. `UtcDayCalendar` is one lawful instance and not the library.
- The date's valid range (plus or minus 8.64e15 ms) is not modelled.
- Event plumbing is not modelled: listener registration, `preventDefault`, `getBoundingClientRect`, and the reading of `pageX - offsetLeft`. These become parameters of `HandleWheel` and `Resize`.
- `setState` is treated as a synchronous assignment. React's batching and asynchrony are not modelled.
- Floating point is not modelled. Doubles are exact reals, so no IEEE rounding, `Infinity` or `NaN`.
- Division by a zero canvas width is excluded by a precondition on `HandleWheel`, `ProposeMove` and `DisplayedStart`, and on `HandleMouseUp` only when an item is active.
- Item identity (`===`) is modelled as value equality. Two distinct items with equal fields would both be previewed as the active one.
- The generator is lazy in the source. The model collects all the ticks it would yield into one sequence.
- ProposeMove: the source passes the callback's `start` as a date-library object and its `end` as a plain number (the object converted through `valueOf`); the model keeps both as their millisecond values.
- Props are fixed at construction: `minZoom`, `maxZoom`, `onItemMovedGiven` and the calendar are `const` fields, whereas the source reads `this.props` on every event, so an owner re-rendering with new bounds or a new callback between events is not modelled.
- `zoomAndMove`'s default argument `moveOffset = 0` is not modelled; callers pass it explicitly.
