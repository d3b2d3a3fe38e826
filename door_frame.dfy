/**
  The frame around a door. A door gets side posts that run from its top up to
  the first horizontal beam above it, and that beam's height is worked out on
  a grid that starts at 0.9 m and climbs in 1.5 m steps, capped at the
  gutter. Windows get a full frame and no extension.

  The wall purlins themselves sit at 0, 0.9 and 2.1 m and then every 1.5 m
  from 2.1 m, so the door's grid (0.9, 2.4, 3.9, ...) and the purlin grid
  (2.1, 3.6, ...) disagree above 0.9 m. The computation is modelled as
  written, the disagreement is exhibited, and a corrected height, the least
  purlin of the door's wall above the door, is defined and proved.
*/
module DoorFrame {
  import opened Common
  import opened WallPurlins

  /** The beam grid of the door frame starts at 900 mm. */
  const DoorGridBase: real := 0.9

  /** The beam grid of the door frame climbs in steps of 1500 mm. */
  const DoorGridStep: real := 1.5

  /** The k-th line of the door frame's beam grid. */
  function GridLine(k: nat): real {
    DoorGridBase + k as real * DoorGridStep
  }

  /** The height of an item's top edge in metres: elevation plus height. */
  function DoorTop(item: ItemData): real {
    Metres(item.elevation) + Metres(item.height)
  }

  /**
    firstBeamAboveDoor as written. A window keeps the default, the gutter
    height. A door whose top is below 0.9 m gets 0.9 m; otherwise the next
    grid line 0.9 + (floor((top - 0.9) / 1.5) + 1) * 1.5, lowered to the
    gutter when it lies above it.
  */
  function FirstBeamAboveDoor(item: ItemData, g: real): (b: real)
    ensures !item.kind.IsDoor() ==> b == g
    ensures item.kind.IsDoor() && DoorTop(item) < DoorGridBase ==> b == DoorGridBase
    ensures item.kind.IsDoor() && DoorTop(item) >= DoorGridBase ==>
      b <= g && (b == g || DoorTop(item) < b <= DoorTop(item) + DoorGridStep)
  {
    if !item.kind.IsDoor() then g
    else
      var top := DoorTop(item);
      if top < DoorGridBase then DoorGridBase
      else
        var steps := ((top - DoorGridBase) / DoorGridStep).Floor;
        var first := DoorGridBase + (steps + 1) as real * DoorGridStep;
        if first > g then g else first
  }

  /** Below the gutter a door's beam always lies on the door grid 0.9 + 1.5 k. */
  lemma FirstBeamOnTheDoorGrid(item: ItemData, g: real)
    requires item.kind.IsDoor()
    ensures var b := FirstBeamAboveDoor(item, g);
      b == g || exists k: nat :: b == GridLine(k)
  {
    var b := FirstBeamAboveDoor(item, g);
    var top := DoorTop(item);
    if top < DoorGridBase {
      assert b == GridLine(0);
    } else if b != g {
      var steps := ((top - DoorGridBase) / DoorGridStep).Floor;
      assert steps >= 0;
      assert b == GridLine(steps + 1);
    }
  }

  /** How far the door's side posts extend above it: up to the first beam for a door, nothing for a window. */
  function ExtraHeight(item: ItemData, g: real): (e: real)
    ensures !item.kind.IsDoor() ==> e == 0.0
    ensures item.kind.IsDoor() ==> e == FirstBeamAboveDoor(item, g) - DoorTop(item)
  {
    if item.kind.IsDoor() then FirstBeamAboveDoor(item, g) - DoorTop(item) else 0.0
  }

  /** A door that fits under the gutter never gets a negative extension; one with room to spare gets a positive one. */
  lemma ExtensionNonNegative(item: ItemData, g: real)
    requires DoorTop(item) <= g
    ensures ExtraHeight(item, g) >= 0.0
    ensures item.kind.IsDoor() && DoorTop(item) < g ==> ExtraHeight(item, g) > 0.0
  {
  }

  /**
    The mismatch exhibited: a walk door 2300 mm high at floor level under a
    3 m gutter gets its beam at 2.4 m, where no wall of the default barn has a
    purlin; the wall's first purlin above the door is the one at 3 m.
  */
  lemma WalkDoorBeamMissesThePurlins(roofHeight: real)
    requires 0.6 < roofHeight <= 2.1
    ensures var door := ItemData("item-1", Loopdeur, 1000.0, 2300.0, Front, 3.5, 0.0, None);
      FirstBeamAboveDoor(door, 3.0) == 2.4
      && (forall w: Wall :: 2.4 !in WallHeights(w, 3.0, roofHeight))
      && FirstPurlinAboveDoor(door, Front, 3.0, roofHeight) == 3.0
      && FirstPurlinAboveDoor(door, Left, 3.0, roofHeight) == 3.0
  {
    var door := ItemData("item-1", Loopdeur, 1000.0, 2300.0, Front, 3.5, 0.0, None);
    assert DoorTop(door) == 2.3;
    assert ((2.3 - DoorGridBase) / DoorGridStep).Floor == 0;
    DefaultBarnHeights(roofHeight);
    forall w: Wall ensures 2.4 !in WallHeights(w, 3.0, roofHeight) {
      assert WallHeights(w, 3.0, roofHeight) == WallHeights(if w.AlongWidth() then Front else Left, 3.0, roofHeight);
    }
    var front := WallHeights(Front, 3.0, roofHeight);
    var left := WallHeights(Left, 3.0, roofHeight);
    assert LeastAbove(front[3..], 2.3, 3.0) == 3.0 by {
      assert front[3..] == [3.6];
      assert front[3..][1..] == [];
    }
    assert LeastAbove(front[2..], 2.3, 3.0) == 3.0 by {
      assert front[2..][1..] == front[3..];
    }
    assert LeastAbove(front[1..], 2.3, 3.0) == 3.0 by {
      assert front[1..][1..] == front[2..];
    }
    assert LeastAbove(left[3..], 2.3, 3.0) == 3.0 by {
      assert left[3..] == [3.0];
      assert left[3..][1..] == [];
    }
    assert LeastAbove(left[2..], 2.3, 3.0) == 3.0 by {
      assert left[2..][1..] == left[3..];
    }
    assert LeastAbove(left[1..], 2.3, 3.0) == 3.0 by {
      assert left[1..][1..] == left[2..];
    }
  }

  // ---------------------------------------------------------------------
  // The corrected height: the first purlin of the wall above the door
  // ---------------------------------------------------------------------

  /**
    The least of the heights strictly above t, or cap when none lies above t
    or all those above t lie above cap.
  */
  function LeastAbove(heights: seq<real>, t: real, cap: real): (r: real)
    ensures r <= cap
    ensures r == cap || (r in heights && t < r)
    ensures forall i :: 0 <= i < |heights| && t < heights[i] ==> r <= heights[i]
    decreases |heights|
  {
    if heights == [] then cap
    else
      var rest := LeastAbove(heights[1..], t, cap);
      assert forall i :: 1 <= i < |heights| ==> heights[i] == heights[1..][i - 1];
      if t < heights[0] && heights[0] < rest then heights[0] else rest
  }

  /**
    The corrected first beam above a door: the lowest purlin of the door's
    wall strictly above the door's top, lowered to the gutter when it lies
    above it; a window keeps the gutter height as before.
  */
  function FirstPurlinAboveDoor(item: ItemData, wall: Wall, g: real, roofHeight: real): (b: real)
    ensures !item.kind.IsDoor() ==> b == g
  {
    if item.kind.IsDoor() then LeastAbove(WallHeights(wall, g, roofHeight), DoorTop(item), g) else g
  }

  /**
    The corrected beam is a purlin of the wall (or the gutter), lies above the
    door unless capped at the gutter, and no purlin of the wall lies between
    the door's top and it; for a door that fits under the gutter the side
    posts never run downwards.
  */
  lemma FirstPurlinIsTheNextPurlin(item: ItemData, wall: Wall, g: real, roofHeight: real)
    requires item.kind.IsDoor()
    ensures var b := FirstPurlinAboveDoor(item, wall, g, roofHeight);
      var hs := WallHeights(wall, g, roofHeight);
      b <= g
      && (b == g || (b in hs && DoorTop(item) < b))
      && (forall i :: 0 <= i < |hs| && DoorTop(item) < hs[i] ==> b <= hs[i])
      && (DoorTop(item) <= g ==> b - DoorTop(item) >= 0.0)
  {
    var hs := WallHeights(wall, g, roofHeight);
    var b := LeastAbove(hs, DoorTop(item), g);
    forall i | 0 <= i < |hs| && DoorTop(item) < hs[i] ensures b <= hs[i] {
    }
  }
}
