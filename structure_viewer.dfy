/**
  The clickable structure view. Clicking a wall selects it and adds a door of
  a default size centred on the click, pushed back inside the wall where the
  click was too close to an edge; each opening of the store is then drawn on
  its wall. Only the arithmetic is modelled: the click point arrives as three
  coordinates, and the drawing as the centre point of each opening.
*/
module StructureViewer {
  import opened Common
  import StructureStore
  import Openings

  /** A point of the scene. */
  datatype Point = Point(x: real, y: real, z: real)

  /** What a click on a wall does: the wall to select and, when the wall has a size, the door to add. */
  datatype Click = Click(selected: Wall, added: Option<StructureStore.NewOpening>)

  /** The span of the clicked wall: the width for front and back, the length for the sides. */
  function ClickedWallWidth(wall: Wall, width: real, length: real): real {
    WallSpan(wall, width, length)
  }

  /** The raw distance of the click from the wall's left edge, before any clamping. */
  function RawDistanceFromLeft(wall: Wall, point: Point, width: real, length: real): real {
    if wall.AlongWidth() then point.x + width / 2.0 else point.z + length / 2.0
  }

  /** The default door: at most 1 m wide and 2 m high, at most 30 % and 70 % of the wall. */
  function DefaultOpeningWidth(wallWidth: real): (w: real)
    ensures wallWidth > 0.0 ==> 0.0 < w < wallWidth
    ensures w <= 1.0
  {
    Min(1.0, wallWidth * 0.3)
  }

  function DefaultOpeningHeight(wallHeight: real): (h: real)
    ensures wallHeight > 0.0 ==> 0.0 < h < wallHeight
    ensures h <= 2.0
  {
    Min(2.0, wallHeight * 0.7)
  }

  /**
    Keep a centre at least half a size from either edge of the range [0, span],
    and give back the near edge of the opening of that size centred there.
  */
  function ClampedOffset(click: real, size: real, span: real): (d: real)
    requires 0.0 < size < span
    ensures 0.0 <= d <= span - size
    ensures size / 2.0 <= click <= span - size / 2.0 ==> d == click - size / 2.0
    ensures click < size / 2.0 ==> d == 0.0
    ensures click > span - size / 2.0 ==> d == span - size
  {
    Max(size / 2.0, Min(click, span - size / 2.0)) - size / 2.0
  }

  /** handleWallClick: select the wall; when it has a positive size, add the clamped default door. */
  function WallClick(wall: Wall, point: Point, width: real, length: real, gutterHeight: real): (c: Click)
    ensures c.selected == wall
    ensures c.added.Some? <==> ClickedWallWidth(wall, width, length) > 0.0 && gutterHeight > 0.0
    ensures c.added.Some? ==>
      var o := c.added.value;
      var ww := ClickedWallWidth(wall, width, length);
      o.kind == StructureStore.Door && o.wall == wall
      && 0.0 < o.width < ww && 0.0 < o.height < gutterHeight
      && 0.0 <= o.distanceFromLeft <= ww - o.width
      && 0.0 <= o.distanceFromBottom <= gutterHeight - o.height
  {
    var ww := ClickedWallWidth(wall, width, length);
    var wh := gutterHeight;
    if ww > 0.0 && wh > 0.0 then
      var w := DefaultOpeningWidth(ww);
      var h := DefaultOpeningHeight(wh);
      var left := ClampedOffset(RawDistanceFromLeft(wall, point, width, length), w, ww);
      var bottom := ClampedOffset(point.y, h, wh);
      Click(wall, Some(StructureStore.NewOpening(StructureStore.Door, wall, w, h, left, bottom)))
    else
      Click(wall, None)
  }

  /**
    A click far enough from every edge of the wall stores a door whose centre
    lies at the click's measured distance from the wall's negative end (the
    minus-x end on front and back, the minus-z end on the sides) and at the
    click's height.
  */
  lemma ClickInsideIsTheCentre(wall: Wall, point: Point, width: real, length: real, gutterHeight: real)
    requires ClickedWallWidth(wall, width, length) > 0.0 && gutterHeight > 0.0
    requires var ww := ClickedWallWidth(wall, width, length);
      var w := DefaultOpeningWidth(ww);
      var raw := RawDistanceFromLeft(wall, point, width, length);
      w / 2.0 <= raw <= ww - w / 2.0
    requires var h := DefaultOpeningHeight(gutterHeight);
      h / 2.0 <= point.y <= gutterHeight - h / 2.0
    ensures var o := WallClick(wall, point, width, length, gutterHeight).added.value;
      o.distanceFromLeft + o.width / 2.0 == RawDistanceFromLeft(wall, point, width, length)
      && o.distanceFromBottom + o.height / 2.0 == point.y
  {
  }

  /** Where an opening of the store is drawn: the centre of its rectangle, just outside its wall. */
  function OpeningCenter(o: StructureStore.Opening, width: real, length: real): (p: Point)
    ensures p.y == o.distanceFromBottom + o.height / 2.0
  {
    var y := o.distanceFromBottom + o.height / 2.0;
    match o.wall
    case Front => Point(-width / 2.0 + o.distanceFromLeft + o.width / 2.0, y, -length / 2.0 - 0.01)
    case Back => Point(width / 2.0 - o.distanceFromLeft - o.width / 2.0, y, length / 2.0 + 0.01)
    case Left => Point(-width / 2.0 - 0.01, y, -length / 2.0 + o.distanceFromLeft + o.width / 2.0)
    case Right => Point(width / 2.0 + 0.01, y, length / 2.0 - o.distanceFromLeft - o.width / 2.0)
  }

  /** The coordinate of a point along a wall: x on front and back, z on the sides. */
  function AlongWall(wall: Wall, p: Point): real {
    if wall.AlongWidth() then p.x else p.z
  }

  /**
    This view measures front and left from the negative end of the axis and
    back and right from the positive end, so an opening drawn here on the back
    or right wall is the mirror image of one drawn there from the page's item
    list at the same offset; on front and left the two drawings agree.
  */
  lemma ViewerMirrorsBackAndRight(o: StructureStore.Opening, item: ItemData, width: real, length: real)
    requires item.wall == o.wall && item.position == o.distanceFromLeft && Metres(item.width) == o.width
    ensures var viewer := AlongWall(o.wall, OpeningCenter(o, width, length));
      var page := Openings.ProjectItem(item, width, length);
      var pageCentre := (page.AlongStart() + page.AlongEnd()) / 2.0;
      (o.wall == Front || o.wall == Left ==> viewer == pageCentre)
      && (o.wall == Back || o.wall == Right ==> viewer == -pageCentre)
  {
  }

  /**
    Where a clicked door is drawn: a click far enough from the edges gets its
    door drawn centred under the pointer on the front and left walls, but on
    the back and right walls at the mirror image of the click, because the
    click is measured from the negative end of the axis and those two walls
    are drawn from the positive end.
  */
  lemma ClickedDoorMirroredOnBackAndRight(wall: Wall, point: Point, width: real, length: real, gutterHeight: real, id: string)
    requires ClickedWallWidth(wall, width, length) > 0.0 && gutterHeight > 0.0
    requires var ww := ClickedWallWidth(wall, width, length);
      var w := DefaultOpeningWidth(ww);
      w / 2.0 <= RawDistanceFromLeft(wall, point, width, length) <= ww - w / 2.0
    ensures var o := WallClick(wall, point, width, length, gutterHeight).added.value.WithId(id);
      var drawn := AlongWall(wall, OpeningCenter(o, width, length));
      (wall == Front || wall == Left ==> drawn == AlongWall(wall, point))
      && (wall == Back || wall == Right ==> drawn == -AlongWall(wall, point))
  {
  }

  /** The click point reflected along the back and right walls, so that it is measured from the end those walls are drawn from. */
  function FromDrawnEnd(wall: Wall, point: Point): Point {
    match wall
    case Back => point.(x := -point.x)
    case Right => point.(z := -point.z)
    case _ => point
  }

  /** The corrected click: back and right clicks are measured from the positive end of their axis. */
  function CorrectedWallClick(wall: Wall, point: Point, width: real, length: real, gutterHeight: real): Click {
    WallClick(wall, FromDrawnEnd(wall, point), width, length, gutterHeight)
  }

  /**
    With the corrected click, a click far enough from the edges gets its door
    drawn centred under the pointer on every wall, at the click's height.
  */
  lemma CorrectedClickIsDrawnUnderThePointer(wall: Wall, point: Point, width: real, length: real, gutterHeight: real, id: string)
    requires ClickedWallWidth(wall, width, length) > 0.0 && gutterHeight > 0.0
    requires var ww := ClickedWallWidth(wall, width, length);
      var w := DefaultOpeningWidth(ww);
      w / 2.0 <= RawDistanceFromLeft(wall, FromDrawnEnd(wall, point), width, length) <= ww - w / 2.0
    requires var h := DefaultOpeningHeight(gutterHeight);
      h / 2.0 <= point.y <= gutterHeight - h / 2.0
    ensures CorrectedWallClick(wall, point, width, length, gutterHeight).added.Some?
    ensures var o := CorrectedWallClick(wall, point, width, length, gutterHeight).added.value.WithId(id);
      AlongWall(wall, OpeningCenter(o, width, length)) == AlongWall(wall, point)
      && OpeningCenter(o, width, length).y == point.y
  {
    ClickInsideIsTheCentre(wall, FromDrawnEnd(wall, point), width, length, gutterHeight);
  }

  /** A door added by a click is drawn with its whole rectangle inside the clicked wall. */
  lemma ClickedOpeningDrawnInsideTheWall(wall: Wall, point: Point, width: real, length: real, gutterHeight: real, id: string)
    requires ClickedWallWidth(wall, width, length) > 0.0 && gutterHeight > 0.0
    ensures var o := WallClick(wall, point, width, length, gutterHeight).added.value.WithId(id);
      var ww := ClickedWallWidth(wall, width, length);
      var c := AlongWall(wall, OpeningCenter(o, width, length));
      -ww / 2.0 + o.width / 2.0 <= c <= ww / 2.0 - o.width / 2.0
      && o.height / 2.0 <= OpeningCenter(o, width, length).y <= gutterHeight - o.height / 2.0
  {
  }
}
