/**
  The page's list of placed doors and windows, with the selected item and the
  preview item the add menu shows. Adding stamps a new id and clears the
  preview; updating spreads a partial item over every item with that id;
  deleting filters the id out and clears the selection when it was that id.
*/
module HomeItems {
  import opened Common
  import Keyed
  import ItemsMenu

  /** The prefix of every item id; the rest is a timestamp. */
  const ItemIdPrefix := "item-"

  function ItemId(item: ItemData): string {
    item.id
  }

  /** handleUpdateItem's map over the list. */
  function UpdateItems(items: seq<ItemData>, id: string, p: ItemPatch): seq<ItemData> {
    Keyed.UpdateById(items, ItemId, id, x => MergeItem(x, p))
  }

  /** handleDeleteItem's filter over the list. */
  function DeleteItems(items: seq<ItemData>, id: string): seq<ItemData> {
    Keyed.RemoveById(items, ItemId, id)
  }

  /** A patch that does not carry an id leaves every item's id as it was. */
  predicate KeepsIds(p: ItemPatch) {
    p.id.None?
  }

  /**
    Updating keeps the list's length and order, merges the patch into the items
    with that id and leaves the others untouched; a patch without an id keeps
    every id.
  */
  lemma UpdateItemsChangesOnlyThatId(items: seq<ItemData>, id: string, p: ItemPatch)
    ensures var r := UpdateItems(items, id, p);
      |r| == |items|
      && (forall k :: 0 <= k < |items| && items[k].id == id ==> r[k] == MergeItem(items[k], p))
      && (forall k :: 0 <= k < |items| && items[k].id != id ==> r[k] == items[k])
      && (KeepsIds(p) ==> forall k :: 0 <= k < |items| ==> r[k].id == items[k].id)
  {
  }

  /** After deleting, no item carries the id, the others are all still there, and in their order. */
  lemma DeleteItemsRemovesExactlyTheId(items: seq<ItemData>, id: string, a: seq<ItemData>, b: seq<ItemData>)
    ensures var r := DeleteItems(items, id);
      (forall k :: 0 <= k < |r| ==> r[k].id != id && r[k] in items)
      && (forall k :: 0 <= k < |items| && items[k].id != id ==> items[k] in r)
      && DeleteItems(a + b, id) == DeleteItems(a, id) + DeleteItems(b, id)
  {
    Keyed.RemoveByIdKeepsOthers(items, ItemId, id);
    Keyed.RemoveByIdDistributes(a, b, ItemId, id);
  }

  /** An item added under a fresh id, edited with id-keeping patches and then deleted, leaves the list as it was. */
  lemma AddedItemDeletesCleanly(items: seq<ItemData>, itemData: NewItem, newId: string, p: ItemPatch)
    requires forall k :: 0 <= k < |items| ==> items[k].id != newId
    requires KeepsIds(p)
    ensures DeleteItems(items + [itemData.WithId(newId)], newId) == items
    ensures DeleteItems(UpdateItems(items + [itemData.WithId(newId)], newId, p), newId) == items
  {
    var added := itemData.WithId(newId);
    Keyed.AddThenRemove(items, added, ItemId);
    Keyed.RemoveAfterUpdate(items + [added], ItemId, newId, x => MergeItem(x, p));
  }

  /**
    The wall list the page hands to the items menu: front and back as wide as
    the building, left and right as long, in that order.
  */
  function PageWalls(width: real, length: real): (r: seq<ItemsMenu.WallEntry>)
    ensures |r| == 4
    ensures forall i, j :: 0 <= i < j < |r| ==> r[i].wall != r[j].wall
    ensures forall k :: 0 <= k < |r| ==> r[k].width == WallSpan(r[k].wall, width, length)
  {
    [ItemsMenu.WallEntry(Front, width), ItemsMenu.WallEntry(Back, width),
     ItemsMenu.WallEntry(Left, length), ItemsMenu.WallEntry(Right, length)]
  }

  /**
    The selected item's wall width: the item's wall looked up in the page's
    wall list, 0 when there is no selected item. Every wall is in the list,
    so the lookup always finds the span of the item's own wall.
  */
  function ItemWallWidth(selected: Option<ItemData>, width: real, length: real): (w: real)
    ensures selected.None? ==> w == 0.0
    ensures selected.Some? ==> w == WallSpan(selected.value.wall, width, length)
  {
    match selected
    case None => 0.0
    case Some(item) =>
      var walls := PageWalls(width, length);
      assert walls[1..] == [walls[1], walls[2], walls[3]] && walls[2..] == [walls[2], walls[3]] && walls[3..] == [walls[3]];
      ItemsMenu.WallWidth(walls, Some(item.wall))
  }

  /** items.find: the first item with that id. */
  function FindItem(items: seq<ItemData>, id: Option<string>): (r: Option<ItemData>)
    ensures r.Some? ==> r.value in items && Some(r.value.id) == id
    ensures r.Some? ==> exists k :: (0 <= k < |items| && items[k] == r.value
      && forall j :: 0 <= j < k ==> Some(items[j].id) != id)
    ensures r.None? <==> forall k :: 0 <= k < |items| ==> Some(items[k].id) != id
  {
    if items == [] then None
    else if Some(items[0].id) == id then Some(items[0])
    else
      var r := FindItem(items[1..], id);
      assert forall k :: 1 <= k < |items| ==> items[k] == items[1..][k - 1];
      r
  }

  /** The item list of the page. */
  class ItemList {
    var items: seq<ItemData>
    var selectedItem: Option<string>
    var previewItem: Option<NewItem>

    constructor()
      ensures items == [] && selectedItem == None && previewItem == None
    {
      items := [];
      selectedItem := None;
      previewItem := None;
    }

    /** The span of the selected item's wall, handed to the item editor. */
    function SelectedItemWallWidth(width: real, length: real): real
      reads this
    {
      ItemWallWidth(FindItem(items, selectedItem), width, length)
    }

    /** handleAddItem: stamp the id "item-" followed by the stamp, append, clear the preview. */
    method AddItem(itemData: NewItem, stamp: string)
      modifies this
      ensures items == old(items) + [itemData.WithId(ItemIdPrefix + stamp)]
      ensures previewItem == None && selectedItem == old(selectedItem)
    {
      items := items + [itemData.WithId(ItemIdPrefix + stamp)];
      previewItem := None;
    }

    /** handleUpdateItem: spread the partial item over every item with that id. */
    method UpdateItem(id: string, data: ItemPatch)
      modifies this
      ensures items == UpdateItems(old(items), id, data)
      ensures selectedItem == old(selectedItem) && previewItem == old(previewItem)
    {
      items := UpdateItems(items, id, data);
    }

    /** handleDeleteItem: filter the id out; clear the selection only when it was that id. */
    method DeleteItem(id: string)
      modifies this
      ensures items == DeleteItems(old(items), id)
      ensures old(selectedItem) == Some(id) ==> selectedItem == None
      ensures old(selectedItem) != Some(id) ==> selectedItem == old(selectedItem)
      ensures previewItem == old(previewItem)
    {
      items := DeleteItems(items, id);
      if selectedItem == Some(id) {
        selectedItem := None;
      }
    }

    /** The preview callback of the add menu. */
    method SetPreviewItem(preview: Option<NewItem>)
      modifies this
      ensures previewItem == preview && items == old(items) && selectedItem == old(selectedItem)
    {
      previewItem := preview;
    }
  }
}
