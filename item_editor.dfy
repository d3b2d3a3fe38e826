/**
  The editor of one placed item. It keeps its own copy of the item's fields
  and reports every change to the page through the update callback; a width
  change that would push the item past the end of its wall also moves it back
  inside. The callbacks are modelled as a log of events.
*/
module ItemEditor {
  import opened Common
  import ItemsMenu

  /** A call the editor makes on the page: an update, a deletion, or closing the editor. */
  datatype EditorEvent = Update(id: string, data: ItemPatch) | Delete(id: string) | Close

  /** The part of s before the first c, or all of s when c does not occur. */
  function Before(s: string, c: char): (r: string)
    ensures |r| <= |s| && r == s[..|r|]
    ensures c !in r
    ensures |r| < |s| ==> s[|r|] == c
  {
    if s == [] then []
    else if s[0] == c then []
    else [s[0]] + Before(s[1..], c)
  }

  /** The part of s after the first c, or None when c does not occur. */
  function After(s: string, c: char): (r: Option<string>)
    ensures r.None? <==> c !in s
    ensures r.Some? ==> exists i :: 0 <= i < |s| && s[i] == c && c !in s[..i] && r.value == s[i + 1..]
  {
    var head := Before(s, c);
    if |head| == |s| then None else Some(s[|head| + 1..])
  }

  /** id.split("-")[1] || "1": the second dash-separated segment, or "1" when it is missing or empty. */
  function ItemNumber(id: string): (n: string)
    ensures n != [] && '-' !in n
    ensures '-' !in id ==> n == "1"
  {
    match After(id, '-')
    case None => "1"
    case Some(rest) =>
      var segment := Before(rest, '-');
      if segment == [] then "1" else segment
  }

  /** generateItemName of the editor: the type's name and the item's number. */
  function EditorItemName(t: ItemType, id: string): string {
    ItemsMenu.TypeName(t) + " " + ItemNumber(id)
  }

  /**
    For an id the page hands out, "item-" followed by a timestamp without a
    dash, the editor's name shows that timestamp.
  */
  lemma EditorNameShowsTheStamp(t: ItemType, stamp: string)
    requires stamp != [] && '-' !in stamp
    ensures EditorItemName(t, "item-" + stamp) == ItemsMenu.TypeName(t) + " " + stamp
  {
    var id := "item-" + stamp;
    assert Before(id, '-') == "item" by {
      assert id[4..][0] == '-';
      assert Before(id[4..], '-') == [];
      assert id[3..][1..] == id[4..];
      assert Before(id[3..], '-') == "m";
      assert id[2..][1..] == id[3..];
      assert Before(id[2..], '-') == "em";
      assert id[1..][1..] == id[2..];
      assert Before(id[1..], '-') == "tem";
    }
    assert id[5..] == stamp;
    BeforeAbsent(stamp, '-');
  }

  /** Cutting at a character that does not occur keeps the whole string. */
  lemma {:induction false} BeforeAbsent(s: string, c: char)
    requires c !in s
    ensures Before(s, c) == s
  {
    if s != [] {
      assert forall x :: x in s[1..] ==> x in s;
      BeforeAbsent(s[1..], c);
    }
  }

  /**
    The name the editor starts with: the item's own name unless it is missing
    or empty. The editor never starts with an empty name: a missing one is
    replaced by the type's display name, a space, and a non-empty number
    without a dash.
  */
  function InitialName(item: ItemData): (name: string)
    ensures name != ""
    ensures item.name.Some? && item.name.value != "" ==> name == item.name.value
    ensures item.name.None? || item.name.value == "" ==> name == EditorItemName(item.kind, item.id)
    ensures item.name.None? || item.name.value == "" ==>
      var prefix := ItemsMenu.TypeName(item.kind) + " ";
      |name| > |prefix| && name[..|prefix|] == prefix && '-' !in name[|prefix|..]
  {
    if item.name.Some? && item.name.value != "" then item.name.value else EditorItemName(item.kind, item.id)
  }

  /** The defaults of the editor's type change; the window is twice as wide as in the add menu. */
  function EditorDefaults(t: ItemType): ItemsMenu.Dimensions {
    match t
    case Sectionaaldeur => ItemsMenu.Dimensions(3000.0, 3000.0, 0.0)
    case Loopdeur => ItemsMenu.Dimensions(1000.0, 2300.0, 0.0)
    case Raam => ItemsMenu.Dimensions(2000.0, 1000.0, 1000.0)
  }

  /** The editor and the add menu agree on the doors and differ on the window's width only. */
  lemma DefaultsDifferOnlyForTheWindowWidth(t: ItemType)
    ensures t.IsDoor() ==> EditorDefaults(t) == ItemsMenu.Defaults(t)
    ensures !t.IsDoor() ==>
      EditorDefaults(t).width == 2.0 * ItemsMenu.Defaults(t).width
      && EditorDefaults(t).height == ItemsMenu.Defaults(t).height
      && EditorDefaults(t).elevation == ItemsMenu.Defaults(t).elevation
  {
  }

  /**
    The position after a width change: unchanged while the item still fits,
    otherwise the free room on the wall, never below zero.
  */
  function ClampPosition(position: real, wallWidth: real, newWidth: real): (p: real)
    ensures position + Metres(newWidth) <= wallWidth ==> p == position
    ensures position + Metres(newWidth) > wallWidth ==> p == Max(0.0, wallWidth - Metres(newWidth))
  {
    if position + Metres(newWidth) > wallWidth then Max(0.0, wallWidth - Metres(newWidth)) else position
  }

  /**
    An item that starts at or after the wall's left edge is never moved to
    the right and never past that edge; the clamp leaves an item that is not
    wider than its wall inside the wall.
  */
  lemma ClampKeepsTheItemInside(position: real, wallWidth: real, newWidth: real)
    ensures position >= 0.0 ==> 0.0 <= ClampPosition(position, wallWidth, newWidth) <= position
    ensures Metres(newWidth) <= wallWidth ==> ClampPosition(position, wallWidth, newWidth) + Metres(newWidth) <= wallWidth
    ensures 0.0 <= position && Metres(newWidth) <= wallWidth ==>
      0.0 <= ClampPosition(position, wallWidth, newWidth) <= wallWidth - Metres(newWidth)
  {
  }

  /** getItemTypeName: the display name of a type code, "Item" for any other code. */
  function GetItemTypeName(code: string): (name: string)
    ensures forall t: ItemType :: code == t.Code() ==> name == ItemsMenu.TypeName(t)
  {
    if code == "sectionaaldeur" then "Sectionaaldeur"
    else if code == "loopdeur" then "Loopdeur"
    else if code == "raam" then "Raam"
    else "Item"
  }

  /** Every code that is not one of the three types' codes is shown as "Item". */
  lemma UnknownCodeIsAnItem(code: string)
    requires forall t: ItemType :: code != t.Code()
    ensures GetItemTypeName(code) == "Item"
  {
    assert code != Sectionaaldeur.Code() && code != Loopdeur.Code() && code != Raam.Code();
  }

  /** The editor of one item on a wall of the given span. */
  class ItemEditor {
    const item: ItemData
    const wallWidth: real

    var width: real
    var height: real
    var position: real
    var elevation: real
    var itemType: ItemType
    var itemName: string
    var events: seq<EditorEvent>

    constructor(item: ItemData, wallWidth: real)
      ensures this.item == item && this.wallWidth == wallWidth
      ensures width == item.width && height == item.height && position == item.position
      ensures elevation == item.elevation && itemType == item.kind
      ensures itemName == InitialName(item) && events == []
    {
      this.item := item;
      this.wallWidth := wallWidth;
      width := item.width;
      height := item.height;
      position := item.position;
      elevation := item.elevation;
      itemType := item.kind;
      itemName := InitialName(item);
      events := [];
    }

    /** handleWidthChange: report the width, and move the item back inside the wall when it no longer fits. */
    method HandleWidthChange(newWidth: real)
      modifies this
      ensures width == newWidth
      ensures position == ClampPosition(old(position), wallWidth, newWidth)
      ensures old(position) + Metres(newWidth) <= wallWidth ==>
        events == old(events) + [Update(item.id, NoItemChange.(width := Some(newWidth)))]
      ensures old(position) + Metres(newWidth) > wallWidth ==>
        events == old(events) + [Update(item.id, NoItemChange.(width := Some(newWidth))),
                                 Update(item.id, NoItemChange.(position := Some(position)))]
      ensures height == old(height) && elevation == old(elevation)
      ensures itemType == old(itemType) && itemName == old(itemName)
    {
      width := newWidth;
      events := events + [Update(item.id, NoItemChange.(width := Some(newWidth)))];
      if position + Metres(newWidth) > wallWidth {
        var newPosition := Max(0.0, wallWidth - Metres(newWidth));
        position := newPosition;
        events := events + [Update(item.id, NoItemChange.(position := Some(newPosition)))];
      }
    }

    /** handleItemTypeChange: report the type, then the type's default size and elevation. */
    method HandleItemTypeChange(t: ItemType)
      modifies this
      ensures itemType == t
      ensures width == EditorDefaults(t).width && height == EditorDefaults(t).height
      ensures elevation == EditorDefaults(t).elevation
      ensures events == old(events) + [Update(item.id, NoItemChange.(kind := Some(t))),
                                       Update(item.id, NoItemChange.(width := Some(width), height := Some(height),
                                                                     elevation := Some(elevation)))]
      ensures position == old(position) && itemName == old(itemName)
    {
      itemType := t;
      events := events + [Update(item.id, NoItemChange.(kind := Some(t)))];
      var d := EditorDefaults(t);
      width := d.width;
      height := d.height;
      elevation := d.elevation;
      events := events + [Update(item.id, NoItemChange.(width := Some(d.width), height := Some(d.height),
                                                        elevation := Some(d.elevation)))];
    }

    method HandleNameChange(name: string)
      modifies this
      ensures itemName == name && events == old(events) + [Update(item.id, NoItemChange.(name := Some(name)))]
      ensures width == old(width) && height == old(height) && position == old(position)
      ensures elevation == old(elevation) && itemType == old(itemType)
    {
      itemName := name;
      events := events + [Update(item.id, NoItemChange.(name := Some(name)))];
    }

    method HandleHeightChange(newHeight: real)
      modifies this
      ensures height == newHeight && events == old(events) + [Update(item.id, NoItemChange.(height := Some(newHeight)))]
      ensures width == old(width) && position == old(position) && elevation == old(elevation)
      ensures itemType == old(itemType) && itemName == old(itemName)
    {
      height := newHeight;
      events := events + [Update(item.id, NoItemChange.(height := Some(newHeight)))];
    }

    method HandlePositionChange(newPosition: real)
      modifies this
      ensures position == newPosition
      ensures events == old(events) + [Update(item.id, NoItemChange.(position := Some(newPosition)))]
      ensures width == old(width) && height == old(height) && elevation == old(elevation)
      ensures itemType == old(itemType) && itemName == old(itemName)
    {
      position := newPosition;
      events := events + [Update(item.id, NoItemChange.(position := Some(newPosition)))];
    }

    method HandleElevationChange(newElevation: real)
      modifies this
      ensures elevation == newElevation
      ensures events == old(events) + [Update(item.id, NoItemChange.(elevation := Some(newElevation)))]
      ensures width == old(width) && height == old(height) && position == old(position)
      ensures itemType == old(itemType) && itemName == old(itemName)
    {
      elevation := newElevation;
      events := events + [Update(item.id, NoItemChange.(elevation := Some(newElevation)))];
    }

    /** handleDelete: ask the page to delete the item, then close the editor. */
    method HandleDelete()
      modifies this
      ensures events == old(events) + [Delete(item.id), Close]
      ensures width == old(width) && height == old(height) && position == old(position)
      ensures elevation == old(elevation) && itemType == old(itemType) && itemName == old(itemName)
    {
      events := events + [Delete(item.id), Close];
    }
  }
}
