/**
  Projection of placed items onto the frame: every door (sectional or walk
  door) becomes an opening rectangle on its wall; windows do not interrupt the
  frame. Along the wall an opening starts at the wall's negative edge plus the
  item's position and is the item's width long; vertically it always runs from
  the floor to the item's height (the item's elevation is not used). The back
  and right walls use the same unmirrored formula as the front and left.
*/
module Openings {
  import opened Common

  /** The id the preview item carries while it is shown. */
  const PreviewId: string := "preview"

  /**
    An opening rectangle in plan and height. On the front and back walls it
    spans [x1, x2] at the wall plane z1 = z2; on the sides it spans [z1, z2]
    at the plane x1 = x2.
  */
  datatype Opening = Opening(id: string, wall: Wall, x1: real, x2: real, y1: real, y2: real,
                             z1: real, z2: real, isPreview: bool)
  {
    /** Where the opening starts along its wall. */
    function AlongStart(): real {
      if wall.AlongWidth() then x1 else z1
    }

    /** Where the opening ends along its wall. */
    function AlongEnd(): real {
      if wall.AlongWidth() then x2 else z2
    }
  }

  /** The placed items followed, when a preview is shown, by the preview under the id "preview". */
  function AllItems(items: seq<ItemData>, preview: Option<NewItem>): (r: seq<ItemData>)
    ensures |r| >= |items| && r[..|items|] == items
    ensures preview.None? ==> |r| == |items|
    ensures preview.Some? ==> |r| == |items| + 1 && r[|items|].id == PreviewId
  {
    match preview
    case None => items
    case Some(p) => items + [p.WithId(PreviewId)]
  }

  /** The plane coordinate of a wall: z = +length/2 (front), -length/2 (back), x = -width/2 (left), +width/2 (right). */
  function WallPlane(wall: Wall, width: real, length: real): real {
    match wall
    case Front => length / 2.0
    case Back => -length / 2.0
    case Left => -width / 2.0
    case Right => width / 2.0
  }

  /** The opening of one door. */
  function ProjectItem(item: ItemData, width: real, length: real): (o: Opening)
    ensures o.id == item.id && o.wall == item.wall
    ensures o.isPreview <==> item.id == PreviewId
    ensures o.AlongStart() == -WallSpan(item.wall, width, length) / 2.0 + item.position
    ensures o.AlongEnd() - o.AlongStart() == Metres(item.width)
    ensures o.y1 == 0.0 && o.y2 == Metres(item.height)
    ensures item.wall.AlongWidth() ==> o.z1 == o.z2 == WallPlane(item.wall, width, length)
    ensures !item.wall.AlongWidth() ==> o.x1 == o.x2 == WallPlane(item.wall, width, length)
  {
    var w := Metres(item.width);
    var h := Metres(item.height);
    var isPreview := item.id == PreviewId;
    match item.wall
    case Front =>
      var x1 := -width / 2.0 + item.position;
      Opening(item.id, Front, x1, x1 + w, 0.0, h, length / 2.0, length / 2.0, isPreview)
    case Back =>
      var x1 := -width / 2.0 + item.position;
      Opening(item.id, Back, x1, x1 + w, 0.0, h, -length / 2.0, -length / 2.0, isPreview)
    case Left =>
      var z1 := -length / 2.0 + item.position;
      Opening(item.id, Left, -width / 2.0, -width / 2.0, 0.0, h, z1, z1 + w, isPreview)
    case Right =>
      var z1 := -length / 2.0 + item.position;
      Opening(item.id, Right, width / 2.0, width / 2.0, 0.0, h, z1, z1 + w, isPreview)
  }

  /** The doors among the items, in list order. */
  function Doors(items: seq<ItemData>): (r: seq<ItemData>)
    ensures forall i :: 0 <= i < |r| ==> r[i].kind.IsDoor() && r[i] in items
  {
    if items == [] then []
    else (if items[0].kind.IsDoor() then [items[0]] else []) + Doors(items[1..])
  }

  /** No door is dropped. */
  lemma {:induction false} DoorsComplete(items: seq<ItemData>)
    ensures forall i :: 0 <= i < |items| && items[i].kind.IsDoor() ==> items[i] in Doors(items)
    decreases |items|
  {
    if items != [] {
      DoorsComplete(items[1..]);
      forall i | 0 < i < |items| ensures items[i] == items[1..][i - 1] {
      }
    }
  }

  lemma {:induction false} DoorsDistributes(a: seq<ItemData>, b: seq<ItemData>)
    ensures Doors(a + b) == Doors(a) + Doors(b)
    decreases |a|
  {
    if a == [] {
      assert a + b == b;
    } else {
      var head := if a[0].kind.IsDoor() then [a[0]] else [];
      calc {
        Doors(a + b);
        { assert (a + b)[0] == a[0]; }
        head + Doors((a + b)[1..]);
        { assert (a + b)[1..] == a[1..] + b; DoorsDistributes(a[1..], b); }
        head + (Doors(a[1..]) + Doors(b));
        (head + Doors(a[1..])) + Doors(b);
        Doors(a) + Doors(b);
      }
    }
  }

  /** The openings the frame works with: the doors of all items (preview included), projected. */
  function ProjectOpenings(items: seq<ItemData>, preview: Option<NewItem>, width: real, length: real): (r: seq<Opening>)
    ensures |r| == |Doors(AllItems(items, preview))|
    ensures forall i :: 0 <= i < |r| ==> r[i] == ProjectItem(Doors(AllItems(items, preview))[i], width, length)
  {
    var doors := Doors(AllItems(items, preview));
    seq(|doors|, i requires 0 <= i < |doors| => ProjectItem(doors[i], width, length))
  }

  /**
    A window never becomes an opening: adding one leaves the openings as they
    were, while adding a door appends exactly its own opening.
  */
  lemma WindowsAddNoOpening(items: seq<ItemData>, item: ItemData, width: real, length: real)
    ensures item.kind == Raam ==>
      ProjectOpenings(items + [item], None, width, length) == ProjectOpenings(items, None, width, length)
    ensures item.kind.IsDoor() ==>
      ProjectOpenings(items + [item], None, width, length)
        == ProjectOpenings(items, None, width, length) + [ProjectItem(item, width, length)]
  {
    DoorsDistributes(items, [item]);
    assert Doors([item]) == (if item.kind.IsDoor() then [item] else []) + Doors([]);
  }

  /** The preview is the only opening flagged as a preview (when no placed item uses the id "preview"). */
  lemma OnlyThePreviewIsFlagged(items: seq<ItemData>, preview: NewItem, width: real, length: real)
    requires forall i :: 0 <= i < |items| ==> items[i].id != PreviewId
    requires preview.kind.IsDoor()
    ensures var r := ProjectOpenings(items, Some(preview), width, length);
      |r| > 0 && r[|r| - 1].isPreview && forall i :: 0 <= i < |r| - 1 ==> !r[i].isPreview
  {
    var all := AllItems(items, Some(preview));
    assert all == items + [preview.WithId(PreviewId)];
    DoorsDistributes(items, [preview.WithId(PreviewId)]);
    assert Doors([preview.WithId(PreviewId)]) == [preview.WithId(PreviewId)] + Doors([]);
    var d := Doors(items);
    forall i | 0 <= i < |d| ensures d[i].id != PreviewId {
      var k :| 0 <= k < |items| && items[k] == d[i];
    }
  }

  /**
    The back wall is not mirrored: an item at the same position gives the same
    x-span on the back wall as on the front, and likewise the same z-span on
    the right wall as on the left.
  */
  lemma BackAndRightNotMirrored(item: ItemData, width: real, length: real)
    ensures var f := ProjectItem(item.(wall := Front), width, length);
            var b := ProjectItem(item.(wall := Back), width, length);
            f.x1 == b.x1 && f.x2 == b.x2
    ensures var l := ProjectItem(item.(wall := Left), width, length);
            var r := ProjectItem(item.(wall := Right), width, length);
            l.z1 == r.z1 && l.z2 == r.z2
  {
  }

  // ---------------------------------------------------------------------
  // The older variant
  // ---------------------------------------------------------------------

  /** The older variant: the same along-wall span, but the wall plane is a slab 0.01 either side. */
  function ProjectItemBackup(item: ItemData, width: real, length: real): (o: Opening)
    ensures o.id == item.id && o.wall == item.wall && (o.isPreview <==> item.id == PreviewId)
    ensures o.AlongStart() == ProjectItem(item, width, length).AlongStart()
    ensures o.AlongEnd() == ProjectItem(item, width, length).AlongEnd()
    ensures o.y1 == 0.0 && o.y2 == Metres(item.height)
    ensures item.wall.AlongWidth() ==> o.z1 == WallPlane(item.wall, width, length) - 0.01 && o.z2 == WallPlane(item.wall, width, length) + 0.01
    ensures !item.wall.AlongWidth() ==> o.x1 == WallPlane(item.wall, width, length) - 0.01 && o.x2 == WallPlane(item.wall, width, length) + 0.01
  {
    var w := Metres(item.width);
    var h := Metres(item.height);
    var isPreview := item.id == PreviewId;
    match item.wall
    case Front =>
      var x1 := -width / 2.0 + item.position;
      Opening(item.id, Front, x1, x1 + w, 0.0, h, length / 2.0 - 0.01, length / 2.0 + 0.01, isPreview)
    case Back =>
      var x1 := -width / 2.0 + item.position;
      Opening(item.id, Back, x1, x1 + w, 0.0, h, -length / 2.0 - 0.01, -length / 2.0 + 0.01, isPreview)
    case Left =>
      var z1 := -length / 2.0 + item.position;
      Opening(item.id, Left, -width / 2.0 - 0.01, -width / 2.0 + 0.01, 0.0, h, z1, z1 + w, isPreview)
    case Right =>
      var z1 := -length / 2.0 + item.position;
      Opening(item.id, Right, width / 2.0 - 0.01, width / 2.0 + 0.01, 0.0, h, z1, z1 + w, isPreview)
  }

  /** The older variant's openings: the doors of all items, projected onto slabs. */
  function ProjectOpeningsBackup(items: seq<ItemData>, preview: Option<NewItem>, width: real, length: real): (r: seq<Opening>)
    ensures |r| == |ProjectOpenings(items, preview, width, length)|
    ensures forall i :: 0 <= i < |r| ==> r[i] == ProjectItemBackup(Doors(AllItems(items, preview))[i], width, length)
  {
    var doors := Doors(AllItems(items, preview));
    seq(|doors|, i requires 0 <= i < |doors| => ProjectItemBackup(doors[i], width, length))
  }

  /**
    Both variants agree on every opening's wall, along-wall span and height;
    the older variant's slab contains the current variant's wall plane.
  */
  lemma BackupAgreesAlongWall(items: seq<ItemData>, preview: Option<NewItem>, width: real, length: real)
    ensures var cur := ProjectOpenings(items, preview, width, length);
            var old_ := ProjectOpeningsBackup(items, preview, width, length);
            forall i :: 0 <= i < |cur| ==>
              old_[i].wall == cur[i].wall && old_[i].id == cur[i].id
              && old_[i].AlongStart() == cur[i].AlongStart() && old_[i].AlongEnd() == cur[i].AlongEnd()
              && old_[i].y1 == cur[i].y1 && old_[i].y2 == cur[i].y2
              && (cur[i].wall.AlongWidth() ==> old_[i].z1 < cur[i].z1 && cur[i].z2 < old_[i].z2)
              && (!cur[i].wall.AlongWidth() ==> old_[i].x1 < cur[i].x1 && cur[i].x2 < old_[i].x2)
  {
    var cur := ProjectOpenings(items, preview, width, length);
    var old_ := ProjectOpeningsBackup(items, preview, width, length);
    var doors := Doors(AllItems(items, preview));
    forall i | 0 <= i < |cur|
      ensures old_[i].wall == cur[i].wall && old_[i].id == cur[i].id
    {
      assert old_[i] == ProjectItemBackup(doors[i], width, length);
      assert cur[i] == ProjectItem(doors[i], width, length);
    }
  }
}
