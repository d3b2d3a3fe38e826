/**
  The add-item menu: pick a wall and an item type, place the item (it is
  centred on the wall and shown as a preview), slide it along the wall, and
  add it. The menu keeps a count per item type to name the items it adds.

  The menu's two callbacks are modelled as logs: `previews` records every
  value handed to the preview callback (None clears the preview) and `added`
  every item handed to the add callback. The wall list and the panel
  thickness are the menu's inputs and do not change.
*/
module ItemsMenu {
  import opened Common

  /** A wall as the menu is offered it: which wall, and its span in metres. */
  datatype WallEntry = WallEntry(wall: Wall, width: real)

  /** The per-type counters of added items. */
  datatype Counts = Counts(sectionaaldeur: nat, loopdeur: nat, raam: nat)
  {
    function Get(t: ItemType): nat {
      match t
      case Sectionaaldeur => sectionaaldeur
      case Loopdeur => loopdeur
      case Raam => raam
    }

    /** The counters with the one for t raised by one; the others are untouched. */
    function Inc(t: ItemType): (c: Counts)
      ensures c.Get(t) == Get(t) + 1
      ensures forall u :: u != t ==> c.Get(u) == Get(u)
    {
      match t
      case Sectionaaldeur => this.(sectionaaldeur := sectionaaldeur + 1)
      case Loopdeur => this.(loopdeur := loopdeur + 1)
      case Raam => this.(raam := raam + 1)
    }
  }

  /** The default width, height and elevation of an item, in millimetres. */
  datatype Dimensions = Dimensions(width: real, height: real, elevation: real)

  // ---------------------------------------------------------------------
  // Names
  // ---------------------------------------------------------------------

  /** The display name of an item type. */
  function TypeName(t: ItemType): (name: string)
    ensures name != [] && ' ' !in name && '-' !in name
  {
    match t
    case Raam => "Raam"
    case Loopdeur => "Loopdeur"
    case Sectionaaldeur => "Sectionaaldeur"
  }

  predicate IsDigit(c: char) {
    '0' <= c <= '9'
  }

  /** The decimal digits of n, most significant first, as a template string shows a count. */
  function NatToString(n: nat): (s: string)
    ensures |s| >= 1
    ensures forall i :: 0 <= i < |s| ==> IsDigit(s[i])
  {
    if n < 10 then ["0123456789"[n]]
    else NatToString(n / 10) + ["0123456789"[n % 10]]
  }

  /** The number a string of decimal digits stands for. */
  function DigitsValue(s: string): int
    requires forall i :: 0 <= i < |s| ==> IsDigit(s[i])
  {
    if s == [] then 0
    else DigitsValue(s[..|s| - 1]) * 10 + (s[|s| - 1] as int - '0' as int)
  }

  /** Reading back the digits of a count gives the count: the digits name it uniquely. */
  lemma {:induction false} NatToStringRoundTrip(n: nat)
    ensures DigitsValue(NatToString(n)) == n
  {
    var s := NatToString(n);
    if n >= 10 {
      NatToStringRoundTrip(n / 10);
      assert s[..|s| - 1] == NatToString(n / 10);
    }
  }

  /** generateItemName: the bare type name for the first item, otherwise the name followed by the count. */
  function GenerateItemName(t: ItemType, count: nat): (name: string)
    ensures count == 1 ==> name == TypeName(t)
    ensures count != 1 ==> name == TypeName(t) + " " + NatToString(count)
  {
    if count == 1 then TypeName(t) else TypeName(t) + " " + NatToString(count)
  }

  /** Two generated names are equal only when they are for the same type and the same count. */
  lemma GeneratedNamesAreDistinct(t: ItemType, c: nat, u: ItemType, d: nat)
    requires GenerateItemName(t, c) == GenerateItemName(u, d)
    ensures t == u && c == d
  {
    var a := GenerateItemName(t, c);
    assert a[0] == TypeName(t)[0] && a[0] == TypeName(u)[0];
    assert t == u;
    var n := |TypeName(t)|;
    if c == 1 || d == 1 {
      if c != d {
        assert false;
      }
    } else {
      assert NatToString(c) == a[n + 1..];
      assert NatToString(d) == a[n + 1..];
      NatToStringRoundTrip(c);
      NatToStringRoundTrip(d);
    }
  }

  // ---------------------------------------------------------------------
  // Defaults, positions and distances
  // ---------------------------------------------------------------------

  /** The size and elevation handleItemTypeChange fills in for each type. */
  function Defaults(t: ItemType): Dimensions {
    match t
    case Sectionaaldeur => Dimensions(3000.0, 3000.0, 0.0)
    case Loopdeur => Dimensions(1000.0, 2300.0, 0.0)
    case Raam => Dimensions(1000.0, 1000.0, 1000.0)
  }

  /** Doors start on the floor and windows start raised; every default size is positive. */
  lemma DefaultsStandDoorsOnTheFloor(t: ItemType)
    ensures Defaults(t).elevation == 0.0 <==> t.IsDoor()
    ensures Defaults(t).width > 0.0 && Defaults(t).height > 0.0
    ensures !t.IsDoor() ==> Defaults(t).elevation > 0.0
  {
  }

  /** The first wall of the list with that identity, if any. */
  function FindWall(walls: seq<WallEntry>, selected: Option<Wall>): (r: Option<WallEntry>)
    ensures r.Some? ==> r.value in walls && Some(r.value.wall) == selected
    ensures r.Some? ==> exists k :: (0 <= k < |walls| && walls[k] == r.value
      && forall j :: 0 <= j < k ==> Some(walls[j].wall) != selected)
    ensures r.None? <==> forall k :: 0 <= k < |walls| ==> Some(walls[k].wall) != selected
  {
    if walls == [] then None
    else if Some(walls[0].wall) == selected then Some(walls[0])
    else
      var r := FindWall(walls[1..], selected);
      assert forall k :: 1 <= k < |walls| ==> walls[k] == walls[1..][k - 1];
      r
  }

  /** The selected wall's span, 0 when no wall of the list is selected. */
  function WallWidth(walls: seq<WallEntry>, selected: Option<Wall>): (r: real)
    ensures (forall k :: 0 <= k < |walls| ==> Some(walls[k].wall) != selected) ==> r == 0.0
    ensures forall k :: (0 <= k < |walls| && Some(walls[k].wall) == selected
      && (forall j :: 0 <= j < k ==> Some(walls[j].wall) != selected)) ==> r == walls[k].width
  {
    match FindWall(walls, selected)
    case Some(entry) => entry.width
    case None => 0.0
  }

  /** The slider's upper bound: the free room on the wall, never below zero. */
  function MaxPosition(wallWidth: real, width: real): (m: real)
    ensures m >= 0.0 && m >= wallWidth - Metres(width)
    ensures m == 0.0 || m == wallWidth - Metres(width)
  {
    Max(0.0, wallWidth - Metres(width))
  }

  /** The centred position of handlePlaceItem: the free room split in two. */
  function MiddlePosition(wallWidth: real, width: real): (p: real)
    ensures p == wallWidth - p - Metres(width)
  {
    (wallWidth - Metres(width)) / 2.0
  }

  /** An item that fits on the wall is centred within the slider's range. */
  lemma MiddleWithinRange(wallWidth: real, width: real)
    requires Metres(width) <= wallWidth
    ensures 0.0 <= MiddlePosition(wallWidth, width) <= MaxPosition(wallWidth, width)
  {
  }

  /** The four gaps shown while an item is placed: to the steel on either side, and including the panels. */
  datatype Distances = Distances(toLeftSteel: real, toRightSteel: real, toLeftWithPanel: real, toRightWithPanel: real)

  /** calculateDistances on the menu's state. */
  function CalculateDistances(placed: bool, wallWidth: real, position: real, width: real, panel: real): (d: Option<Distances>)
    ensures d.None? <==> !placed
    ensures d.Some? ==>
      d.value.toLeftSteel == position
      && d.value.toLeftSteel + Metres(width) + d.value.toRightSteel == wallWidth
      && d.value.toLeftWithPanel == d.value.toLeftSteel + panel
      && d.value.toRightWithPanel == d.value.toRightSteel + panel
  {
    if !placed then None
    else
      var w := Metres(width);
      Some(Distances(position, wallWidth - position - w, position + panel, wallWidth - position - w + panel))
  }

  /** Right after placing, the item stands as far from the left steel as from the right. */
  lemma PlacedItemIsCentred(wallWidth: real, width: real, panel: real)
    ensures var d := CalculateDistances(true, wallWidth, MiddlePosition(wallWidth, width), width, panel);
      d.Some? && d.value.toLeftSteel == d.value.toRightSteel && d.value.toLeftWithPanel == d.value.toRightWithPanel
  {
  }

  // ---------------------------------------------------------------------
  // The menu
  // ---------------------------------------------------------------------

  class ItemsMenu {
    const walls: seq<WallEntry>
    /** The panel thickness in metres. */
    const panel: real

    var selectedWall: Option<Wall>
    var itemType: ItemType
    var width: real
    var height: real
    var position: real
    var elevation: real
    var itemName: string
    var itemCounts: Counts
    var isPlaced: bool
    var previews: seq<Option<NewItem>>
    var added: seq<NewItem>

    /** A fresh menu: no wall, a sectional door of 3000 by 3000 at position 0, an empty name, all counts 0. */
    constructor(walls: seq<WallEntry>, panel: real)
      ensures this.walls == walls && this.panel == panel
      ensures selectedWall == None && itemType == Sectionaaldeur
      ensures width == 3000.0 && height == 3000.0 && position == 0.0 && elevation == 0.0
      ensures itemName == "" && itemCounts == Counts(0, 0, 0) && !isPlaced
      ensures previews == [] && added == []
    {
      this.walls := walls;
      this.panel := panel;
      selectedWall := None;
      itemType := Sectionaaldeur;
      width := 3000.0;
      height := 3000.0;
      position := 0.0;
      elevation := 0.0;
      itemName := "";
      itemCounts := Counts(0, 0, 0);
      isPlaced := false;
      previews := [];
      added := [];
    }

    function CurrentWallWidth(): real
      reads this
    {
      WallWidth(walls, selectedWall)
    }

    /** The item the menu describes, on the given wall and at the given position. */
    function Draft(wall: Wall, at: real): NewItem
      reads this
    {
      NewItem(itemType, width, height, wall, at, elevation, Some(itemName))
    }

    /** calculateDistances: the gaps, shown only while a selected wall holds a placed item. */
    function CurrentDistances(): (d: Option<Distances>)
      reads this
      ensures d.None? <==> (selectedWall.None? || !isPlaced)
    {
      CalculateDistances(selectedWall.Some? && isPlaced, CurrentWallWidth(), position, width, panel)
    }

    /**
      handleItemTypeChange: the type's default size and elevation, a name for
      the next item of that type, not placed, and the preview cleared.
    */
    method HandleItemTypeChange(t: ItemType)
      modifies this
      ensures itemType == t
      ensures width == Defaults(t).width && height == Defaults(t).height && elevation == Defaults(t).elevation
      ensures itemName == GenerateItemName(t, itemCounts.Get(t) + 1)
      ensures !isPlaced && previews == old(previews) + [None]
      ensures selectedWall == old(selectedWall) && position == old(position)
      ensures itemCounts == old(itemCounts) && added == old(added)
    {
      itemType := t;
      var d := Defaults(t);
      width := d.width;
      height := d.height;
      elevation := d.elevation;
      itemName := GenerateItemName(t, itemCounts.Get(t) + 1);
      isPlaced := false;
      previews := previews + [None];
    }

    /** handlePlaceItem: without a wall nothing happens; otherwise centre the item, mark it placed and preview it. */
    method HandlePlaceItem()
      modifies this
      ensures old(selectedWall).None? ==> position == old(position) && isPlaced == old(isPlaced) && previews == old(previews)
      ensures old(selectedWall).Some? ==>
        position == MiddlePosition(CurrentWallWidth(), width)
        && isPlaced
        && previews == old(previews) + [Some(Draft(old(selectedWall).value, position))]
      ensures selectedWall == old(selectedWall) && itemType == old(itemType) && itemName == old(itemName)
      ensures width == old(width) && height == old(height) && elevation == old(elevation)
      ensures itemCounts == old(itemCounts) && added == old(added)
    {
      if selectedWall.None? {
        return;
      }
      var middle := MiddlePosition(CurrentWallWidth(), width);
      position := middle;
      isPlaced := true;
      previews := previews + [Some(Draft(selectedWall.value, middle))];
    }

    /** handlePositionChange: always store the position; preview it only while a wall holds a placed item. */
    method HandlePositionChange(newPosition: real)
      modifies this
      ensures position == newPosition
      ensures old(selectedWall).Some? && old(isPlaced) ==>
        previews == old(previews) + [Some(Draft(old(selectedWall).value, newPosition))]
      ensures !(old(selectedWall).Some? && old(isPlaced)) ==> previews == old(previews)
      ensures selectedWall == old(selectedWall) && isPlaced == old(isPlaced) && itemType == old(itemType)
      ensures width == old(width) && height == old(height) && elevation == old(elevation)
      ensures itemName == old(itemName) && itemCounts == old(itemCounts) && added == old(added)
    {
      position := newPosition;
      if selectedWall.Some? && isPlaced {
        previews := previews + [Some(Draft(selectedWall.value, newPosition))];
      }
    }

    /**
      handleAddItem as written: with a wall selected and the item placed,
      count it, hand it over, reset the form and clear the preview. The reset
      regenerates the name from the count as it was before this addition, so
      a name that was generated for this item is handed out again.
    */
    method HandleAddItem()
      modifies this
      ensures !(old(selectedWall).Some? && old(isPlaced)) ==>
        itemCounts == old(itemCounts) && added == old(added) && previews == old(previews)
        && position == old(position) && isPlaced == old(isPlaced) && itemName == old(itemName)
        && width == old(width) && height == old(height) && elevation == old(elevation)
      ensures old(selectedWall).Some? && old(isPlaced) ==>
        itemCounts == old(itemCounts).Inc(old(itemType))
        && added == old(added) + [NewItem(old(itemType), old(width), old(height), old(selectedWall).value,
                                          old(position), old(elevation), Some(old(itemName)))]
        && width == Defaults(itemType).width && height == Defaults(itemType).height
        && elevation == Defaults(itemType).elevation
        && itemName == GenerateItemName(itemType, old(itemCounts).Get(itemType) + 1)
        && (old(itemName) == GenerateItemName(itemType, old(itemCounts).Get(itemType) + 1) ==> itemName == old(itemName))
        && position == 0.0 && !isPlaced
        && previews == old(previews) + [None, None]
      ensures selectedWall == old(selectedWall) && itemType == old(itemType)
    {
      if selectedWall.None? || !isPlaced {
        return;
      }
      var before := itemCounts;
      itemCounts := itemCounts.Inc(itemType);
      added := added + [Draft(selectedWall.value, position)];
      // the reset reads the counts captured before the increment
      var d := Defaults(itemType);
      width := d.width;
      height := d.height;
      elevation := d.elevation;
      itemName := GenerateItemName(itemType, before.Get(itemType) + 1);
      isPlaced := false;
      previews := previews + [None];
      position := 0.0;
      previews := previews + [None];
    }

    /**
      handleAddItem as evidently intended: identical, except that the reset
      names the next item from the raised count, so no two added items of a
      type receive the same generated name.
    */
    method HandleAddItemWithFreshName()
      modifies this
      ensures !(old(selectedWall).Some? && old(isPlaced)) ==>
        itemCounts == old(itemCounts) && added == old(added) && previews == old(previews)
        && position == old(position) && isPlaced == old(isPlaced) && itemName == old(itemName)
        && width == old(width) && height == old(height) && elevation == old(elevation)
      ensures old(selectedWall).Some? && old(isPlaced) ==>
        itemCounts == old(itemCounts).Inc(old(itemType))
        && added == old(added) + [NewItem(old(itemType), old(width), old(height), old(selectedWall).value,
                                          old(position), old(elevation), Some(old(itemName)))]
        && width == Defaults(itemType).width && height == Defaults(itemType).height
        && elevation == Defaults(itemType).elevation
        && itemName == GenerateItemName(itemType, itemCounts.Get(itemType) + 1)
        && (old(itemName) == GenerateItemName(itemType, old(itemCounts).Get(itemType) + 1) ==> itemName != old(itemName))
        && position == 0.0 && !isPlaced
        && previews == old(previews) + [None, None]
      ensures selectedWall == old(selectedWall) && itemType == old(itemType)
    {
      if selectedWall.None? || !isPlaced {
        return;
      }
      var before := itemCounts;
      itemCounts := itemCounts.Inc(itemType);
      added := added + [Draft(selectedWall.value, position)];
      var d := Defaults(itemType);
      width := d.width;
      height := d.height;
      elevation := d.elevation;
      itemName := GenerateItemName(itemType, itemCounts.Get(itemType) + 1);
      if before.Get(itemType) + 1 == itemCounts.Get(itemType) + 1 {
        assert false;
      }
      if GenerateItemName(itemType, before.Get(itemType) + 1) == itemName {
        GeneratedNamesAreDistinct(itemType, before.Get(itemType) + 1, itemType, itemCounts.Get(itemType) + 1);
      }
      isPlaced := false;
      previews := previews + [None];
      position := 0.0;
      previews := previews + [None];
    }

    /** handleWallChange: select the wall, unplace the item and clear the preview. */
    method HandleWallChange(wall: Wall)
      modifies this
      ensures selectedWall == Some(wall) && !isPlaced && previews == old(previews) + [None]
      ensures position == old(position) && itemType == old(itemType) && itemName == old(itemName)
      ensures width == old(width) && height == old(height) && elevation == old(elevation)
      ensures itemCounts == old(itemCounts) && added == old(added)
    {
      selectedWall := Some(wall);
      isPlaced := false;
      previews := previews + [None];
    }

    /** handleCancelPlacement: unplace the item and clear the preview. */
    method HandleCancelPlacement()
      modifies this
      ensures !isPlaced && previews == old(previews) + [None]
      ensures selectedWall == old(selectedWall) && position == old(position) && itemType == old(itemType)
      ensures width == old(width) && height == old(height) && elevation == old(elevation)
      ensures itemName == old(itemName) && itemCounts == old(itemCounts) && added == old(added)
    {
      isPlaced := false;
      previews := previews + [None];
    }
  }
}
