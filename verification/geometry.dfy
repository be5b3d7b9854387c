/**
 * Trigger arithmetic and classification of the scroll zone.
 *
 * Coordinates are document pixels growing downwards. A reference line is read
 * through its first matched element: `offset().top` and `outerHeight()`.
 * "South" (the default) watches downward scrolling; "north" watches upward
 * scrolling and flips every comparison and offset sign.
 */
module Geometry {
  import opened Wrappers

  /** Top edge and outer height of a reference element. */
  datatype Box = Box(top: int, height: int)

  /** The zone's discrete state after one evaluation. `Inert` is the guard's forced state. */
  datatype Phase = Inert | Idle | Running | Completed

  /**
   * `offset ? offset : 0`: a missing offset and a zero offset both count as 0,
   * any other value is used as given.
   */
  function OffsetOrZero(o: Option<int>): (r: int)
    ensures o == None || o == Some(0) ==> r == 0
    ensures o.Some? && o.value != 0 ==> r == o.value
  {
    match o
    case None => 0
    case Some(v) => if v != 0 then v else 0
  }

  /**
   * Whether scroll position `s` has reached threshold `t` in the watched
   * direction: at or above it going north, at or below it going south.
   */
  predicate Reached(north: bool, s: int, t: int)
  {
    if north then s <= t else s >= t
  }

  /** The start trigger: the line edge last crossed in the scroll direction, pushed `offset` further along. */
  function StartTrigger(north: bool, line: Box, offset: int): int
  {
    var startPoint := if north then line.top else line.top + line.height;
    if north then startPoint - offset else startPoint + offset
  }

  /** The finish trigger: the line edge first crossed in the scroll direction, pushed `offset` further along. */
  function FinishTrigger(north: bool, line: Box, offset: int): int
  {
    var finishPoint := if north then line.top + line.height else line.top;
    if north then finishPoint - offset else finishPoint + offset
  }

  /** `isRunning`: the scroll position has reached the start trigger. */
  predicate IsRunning(north: bool, s: int, startTrigger: int)
  {
    Reached(north, s, startTrigger)
  }

  /** `hasCompleted`: the scroll position has reached the finish trigger less the finish line's height. */
  predicate HasCompleted(north: bool, s: int, finishTrigger: int, finishHeight: int)
  {
    Reached(north, s, finishTrigger - finishHeight)
  }

  /** The guard: too narrow a viewport, or an empty selection for the node, start line or finish line. */
  predicate Killed(killWidth: Option<int>, windowWidth: int, nodeCount: nat, startCount: nat, finishCount: nat)
  {
    // `width <= undefined` is false in JavaScript, so a missing kill width never fires.
    || (killWidth.Some? && windowWidth <= killWidth.value)
    || nodeCount == 0
    || startCount == 0
    || finishCount == 0
  }

  /** Classification: Completed takes precedence over Running, which takes precedence over Idle. */
  function Classify(running: bool, completed: bool): (r: Phase)
    ensures r != Inert
    ensures r == Completed <==> completed
    ensures r == Running <==> running && !completed
    ensures r == Idle <==> !running && !completed
  {
    if completed then Completed else if running then Running else Idle
  }

  // ---------------------------------------------------------------------
  // Direction handling

  /** The sign transform that direction amounts to: north negates every coordinate. */
  function Signed(north: bool, x: int): int
  {
    if north then -x else x
  }

  /** Each direction is the same "at or past" comparison after the sign transform. */
  lemma ReachedIsSigned(north: bool, s: int, t: int)
    ensures Reached(north, s, t) <==> Signed(north, s) >= Signed(north, t)
  {
  }

  /** Each trigger is its line's edge shifted by the offset in the scroll direction. */
  lemma TriggersAreSignedShifts(north: bool, start: Box, finish: Box, startOffset: int, finishOffset: int)
    ensures Signed(north, StartTrigger(north, start, startOffset))
         == Signed(north, if north then start.top else start.top + start.height) + startOffset
    ensures Signed(north, FinishTrigger(north, finish, finishOffset))
         == Signed(north, if north then finish.top + finish.height else finish.top) + finishOffset
  {
  }

  /** The box's image when the page is turned upside down (y becomes -y). */
  function Reflect(b: Box): (r: Box)
    ensures r.height == b.height
    ensures r.top + r.height == -b.top
  {
    Box(-(b.top + b.height), b.height)
  }

  /**
   * North is south on the reflected page for both triggers and for `isRunning`.
   * For `hasCompleted` the mirror holds only after moving the scroll position
   * by twice the finish line's height, because both directions subtract that
   * height from the finish trigger.
   */
  lemma NorthMirrorsSouth(s: int, start: Box, finish: Box, startOffset: int, finishOffset: int)
    ensures StartTrigger(true, start, startOffset) == -StartTrigger(false, Reflect(start), startOffset)
    ensures FinishTrigger(true, finish, finishOffset) == -FinishTrigger(false, Reflect(finish), finishOffset)
    ensures IsRunning(true, s, StartTrigger(true, start, startOffset))
       <==> IsRunning(false, -s, StartTrigger(false, Reflect(start), startOffset))
    ensures HasCompleted(true, s, FinishTrigger(true, finish, finishOffset), finish.height)
       <==> HasCompleted(false, -s - 2 * finish.height,
                         FinishTrigger(false, Reflect(finish), finishOffset), finish.height)
  {
  }

  /** A larger offset moves the start trigger further along: whatever runs with it runs without it. */
  lemma LargerStartOffsetStartsLater(north: bool, s: int, start: Box, offset: int, extra: nat)
    ensures IsRunning(north, s, StartTrigger(north, start, offset + extra))
        ==> IsRunning(north, s, StartTrigger(north, start, offset))
  {
  }

  /** Scrolling the page and every line by the same distance leaves both decisions unchanged. */
  lemma TranslationInvariant(north: bool, s: int, d: int, start: Box, finish: Box,
                             startOffset: int, finishOffset: int)
    ensures IsRunning(north, s + d, StartTrigger(north, Box(start.top + d, start.height), startOffset))
        <==> IsRunning(north, s, StartTrigger(north, start, startOffset))
    ensures HasCompleted(north, s + d, FinishTrigger(north, Box(finish.top + d, finish.height), finishOffset), finish.height)
        <==> HasCompleted(north, s, FinishTrigger(north, finish, finishOffset), finish.height)
  {
  }
}
