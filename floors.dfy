/** Floor arithmetic of the elevator interactions, on `u32` floor numbers: the
    elevator pad that sends the car to the other end of its shaft, and the
    floor-selector call button that the cursor keys move up and down. */
module Floors {
  import opened Common

  /** The top floor as the pad computes it: `len.saturating_sub(1) as u32`. */
  function PadLastIndex(pointCount: nat): u32 {
    AsU32(SaturatingSub(pointCount, 1))
  }

  /** The top floor as the selector computes it: `(len as u32).saturating_sub(1)`. */
  function SelectorLastIndex(pointCount: nat): u32 {
    SaturatingSub(AsU32(pointCount), 1)
  }

  /** The two computations agree, on the index of the last point, for any
      elevator with fewer than 2^32 points; with no points both give floor 0. */
  lemma LastIndicesAgree(pointCount: nat)
    requires pointCount < U32_LIMIT
    ensures PadLastIndex(pointCount) == SelectorLastIndex(pointCount)
    ensures pointCount > 0 ==> PadLastIndex(pointCount) == pointCount - 1
    ensures pointCount == 0 ==> PadLastIndex(pointCount) == 0
  {
  }

  /** The floor the pad calls the elevator to: from the top floor to the bottom,
      otherwise from the bottom to the top, and from any other floor nowhere. */
  function PadCall(currentFloor: u32, pointCount: nat): (r: Option<u32>)
    ensures r.Some? <==> currentFloor == 0 || currentFloor == PadLastIndex(pointCount)
    ensures r.Some? ==> r.value == 0 || r.value == PadLastIndex(pointCount)
    ensures r.Some? && PadLastIndex(pointCount) != 0 ==> r.value != currentFloor
  {
    var last := PadLastIndex(pointCount);
    if currentFloor == last then Some(0)
    else if currentFloor == 0 then Some(last)
    else None
  }

  /** Calling the pad again from the floor it sent the elevator to sends it back. */
  lemma PadCallRoundTrip(currentFloor: u32, pointCount: nat)
    requires PadCall(currentFloor, pointCount).Some?
    ensures PadCall(PadCall(currentFloor, pointCount).value, pointCount) == Some(currentFloor)
  {
  }

  /** On an elevator with at least two floors, the pad at the bottom calls the top
      and at the top calls the bottom. */
  lemma PadCallAlternates(pointCount: nat)
    requires 2 <= pointCount < U32_LIMIT
    ensures PadCall(0, pointCount) == Some(pointCount - 1)
    ensures PadCall(pointCount - 1, pointCount) == Some(0)
  {
  }

  /** The floor a selector button moves to: "down" takes precedence and stops at
      floor 0, "up" stops at the top floor; with neither key held nothing moves. */
  function SelectFloor(floor: u32, pointCount: nat, cursorUp: bool, cursorDown: bool): (r: Option<u32>)
    ensures r.None? <==> !cursorUp && !cursorDown
    ensures cursorDown ==> r.Some? && r.value <= floor && (floor > 0 ==> r.value == floor - 1)
    ensures !cursorDown && cursorUp ==>
              && r.Some?
              && r.value <= SelectorLastIndex(pointCount)
              && (floor < SelectorLastIndex(pointCount) ==> r.value == floor + 1)
              && (floor >= SelectorLastIndex(pointCount) ==> r.value == SelectorLastIndex(pointCount))
  {
    if cursorDown then Some(SaturatingSub(floor, 1))
    else if cursorUp then
      var raised := SaturatingAddU32(floor, 1);
      var last := SelectorLastIndex(pointCount);
      Some(if raised < last then raised else last)
    else None
  }

  /** A selector on a valid floor of an elevator with at least one point stays on a
      valid floor. */
  lemma SelectorStaysOnValidFloors(floor: u32, pointCount: nat, cursorUp: bool, cursorDown: bool)
    requires 1 <= pointCount < U32_LIMIT && floor < pointCount
    ensures SelectFloor(floor, pointCount, cursorUp, cursorDown).Some? ==>
              SelectFloor(floor, pointCount, cursorUp, cursorDown).value < pointCount
  {
  }

  /** Moving up one floor below the top and then down again returns to the start. */
  lemma SelectUpThenDown(floor: u32, pointCount: nat)
    requires pointCount < U32_LIMIT && floor + 1 < pointCount
    ensures SelectFloor(SelectFloor(floor, pointCount, true, false).value, pointCount, false, true)
            == Some(floor)
  {
  }
}
