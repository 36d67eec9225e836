/**
 * The named screen regions and the `GAZE_REGIONS` table that both text-entry pages
 * declare identically: four letter-range slots in a fixed key order.
 */
module GazeRegions {
  import opened Wrappers

  /** Every region either page's classifier can return. */
  datatype Region = LeftUp | RightUp | LeftDown | RightDown | ModeSwitch | Center | Clear | Delete

  /** Milliseconds a region must be held before it is selected. */
  const GAZE_THRESHOLD: int := 1000

  /** `Object.keys(GAZE_REGIONS)`, in insertion order. */
  const SLOTS: seq<Region> := [LeftUp, RightUp, LeftDown, RightDown]

  /** `Object.values(GAZE_REGIONS).map(r => r.label)`. */
  const LABELS: seq<string> := ["A-F", "G-M", "N-T", "U-Z"]

  /** `GAZE_REGIONS[region]?.label`: only the four slots have an entry. */
  function Label(region: Region): (l: Option<string>)
    ensures l.Some? <==> region in SLOTS
    ensures l.Some? ==> |l.value| == 3 && l.value[1] == '-'
  {
    match region
    case LeftUp => Some("A-F")
    case RightUp => Some("G-M")
    case LeftDown => Some("N-T")
    case RightDown => Some("U-Z")
    case _ => None
  }

  /** `Object.keys(GAZE_REGIONS).indexOf(region)`: -1 for a region without an entry. */
  function SlotIndex(region: Region): (i: int)
    ensures -1 <= i < |SLOTS|
    ensures i >= 0 ==> SLOTS[i] == region
    ensures i == -1 <==> region !in SLOTS
  {
    match region
    case LeftUp => 0
    case RightUp => 1
    case LeftDown => 2
    case RightDown => 3
    case _ => -1
  }

  /** The label list sent at start-up lists each slot's label in slot order. */
  lemma LabelsFollowSlots(i: int)
    requires 0 <= i < |SLOTS|
    ensures Label(SLOTS[i]) == Some(LABELS[i])
    ensures SlotIndex(SLOTS[i]) == i
  {
  }

  // The 40%/60% lines both classifiers test, in the order they test them.

  /** `y < innerHeight * 0.4`. */
  predicate UpperBand(y: real, height: real) {
    y < height * 0.4
  }

  /** The `else if (y > innerHeight * 0.6)` branch. */
  predicate LowerBand(y: real, height: real) {
    !UpperBand(y, height) && y > height * 0.6
  }

  /** `x < innerWidth * 0.4`. */
  predicate LeftColumn(x: real, width: real) {
    x < width * 0.4
  }

  /** `x > innerWidth * 0.6`, tested after the left column. */
  predicate RightColumn(x: real, width: real) {
    !LeftColumn(x, width) && x > width * 0.6
  }

  predicate MiddleColumn(x: real, width: real) {
    !LeftColumn(x, width) && !RightColumn(x, width)
  }

  /**
   * On a viewport of non-negative size the bands are the plain threshold tests, and
   * the middle column includes both of its 40% and 60% edges.
   */
  lemma BandsOnViewport(x: real, y: real, width: real, height: real)
    requires width >= 0.0 && height >= 0.0
    ensures LowerBand(y, height) <==> y > height * 0.6
    ensures RightColumn(x, width) <==> x > width * 0.6
    ensures MiddleColumn(x, width) <==> width * 0.4 <= x <= width * 0.6
  {
  }
}
