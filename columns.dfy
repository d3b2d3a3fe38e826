/**
  Splitting a column around a door. A column is tested at half the gutter
  height against the openings in list order; the first opening on the
  column's wall whose height range contains the test height and whose
  along-wall span contains the column is the one the column runs into. A
  column that runs into an opening keeps only a bottom piece from the floor to
  the opening's bottom (when that is above the floor) and a top piece from the
  opening's top to the gutter (when that is below the gutter).
*/
module Columns {
  import opened Common
  import opened Intervals
  import opened Openings
  import Bays

  /** How close (0.1) a column must be to a wall line to count as standing on it. */
  const WallTolerance: real := 0.1

  /**
    The wall a column stands on, tested front, back, left, right in that order,
    so the four corner columns count as front or back columns. None when the
    column is on no wall line.
  */
  function ClassifyWall(x: real, z: real, width: real, length: real): (r: Option<Wall>)
    ensures r == Some(Front) <==> Abs(z - length / 2.0) < WallTolerance
    ensures r == Some(Back) <==> Abs(z - length / 2.0) >= WallTolerance && Abs(z + length / 2.0) < WallTolerance
    ensures r == Some(Left) <==>
      Abs(z - length / 2.0) >= WallTolerance && Abs(z + length / 2.0) >= WallTolerance && Abs(x + width / 2.0) < WallTolerance
    ensures r == Some(Right) <==>
      Abs(z - length / 2.0) >= WallTolerance && Abs(z + length / 2.0) >= WallTolerance
      && Abs(x + width / 2.0) >= WallTolerance && Abs(x - width / 2.0) < WallTolerance
    ensures r.None? <==>
      Abs(z - length / 2.0) >= WallTolerance && Abs(z + length / 2.0) >= WallTolerance
      && Abs(x + width / 2.0) >= WallTolerance && Abs(x - width / 2.0) >= WallTolerance
  {
    if Abs(z - length / 2.0) < WallTolerance then Some(Front)
    else if Abs(z + length / 2.0) < WallTolerance then Some(Back)
    else if Abs(x + width / 2.0) < WallTolerance then Some(Left)
    else if Abs(x - width / 2.0) < WallTolerance then Some(Right)
    else None
  }

  /** Whether the column at (x, z), tested at height h, runs into opening o. */
  predicate Splits(o: Opening, x: real, z: real, h: real, width: real, length: real) {
    ClassifyWall(x, z, width, length) == Some(o.wall)
    && o.y1 <= h <= o.y2
    && (if o.wall.AlongWidth() then o.x1 <= x <= o.x2 else o.z1 <= z <= o.z2)
  }

  /** The vertical extent of the opening a column runs into. */
  datatype Hit = Hit(y1: real, y2: real)

  /** The first opening, in list order, that the test accepts; None when it accepts none. */
  function FirstHit(openings: seq<Opening>, splits: Opening -> bool): (r: Option<Hit>)
    ensures r.None? <==> forall k :: 0 <= k < |openings| ==> !splits(openings[k])
    ensures r.Some? ==> exists k :: (0 <= k < |openings| && splits(openings[k])
      && r.value == Hit(openings[k].y1, openings[k].y2)
      && forall j :: 0 <= j < k ==> !splits(openings[j]))
  {
    if openings == [] then None
    else if splits(openings[0]) then Some(Hit(openings[0].y1, openings[0].y2))
    else
      var r := FirstHit(openings[1..], splits);
      assert forall k :: 1 <= k < |openings| ==> openings[k] == openings[1..][k - 1];
      r
  }

  /** The pieces a column from the floor to the gutter g is rendered as. */
  function ColumnPieces(hit: Option<Hit>, g: real): (r: seq<Interval>)
    ensures |r| <= 2
    ensures hit.None? ==> r == [Interval(0.0, g)]
  {
    match hit
    case None => [Interval(0.0, g)]
    case Some(Hit(y1, y2)) =>
      (if y1 > 0.0 then [Interval(0.0, y1)] else []) + (if y2 < g then [Interval(y2, g)] else [])
  }

  /** p lies in one of the closed pieces. */
  ghost predicate InSomePiece(r: seq<Interval>, p: real) {
    exists i :: 0 <= i < |r| && r[i].start <= p <= r[i].end
  }

  /**
    A column cut by an opening that contains the test height g/2: its pieces
    have positive length, lie on [0, g] in order, stay clear of the opening,
    and together with [y1, y2] make up the whole column [0, g].
  */
  lemma SplitReconstructs(y1: real, y2: real, g: real)
    requires g > 0.0 && y1 <= g / 2.0 <= y2
    ensures var r := ColumnPieces(Some(Hit(y1, y2)), g);
      Proper(r) && Ordered(r) && Inside(r, 0.0, g)
      && (forall i :: 0 <= i < |r| ==> r[i].end <= y1 || y2 <= r[i].start)
      && (forall p :: 0.0 <= p <= g ==> InSomePiece(r, p) || y1 <= p <= y2)
  {
    var r := ColumnPieces(Some(Hit(y1, y2)), g);
    forall p | 0.0 <= p <= g ensures InSomePiece(r, p) || y1 <= p <= y2 {
      if p < y1 {
        assert r[0] == Interval(0.0, y1);
      } else if p > y2 {
        assert r[|r| - 1] == Interval(y2, g);
      }
    }
  }

  /** What a column at (x, z) is rendered as, given the openings of the current layout. */
  function ColumnMembers(x: real, z: real, openings: seq<Opening>, width: real, length: real, g: real): seq<Interval> {
    ColumnPieces(FirstHit(openings, o => Splits(o, x, z, g / 2.0, width, length)), g)
  }

  /**
    A column that runs into no opening is one piece from the floor to the
    gutter; one that does is cut around the first opening it runs into.
  */
  lemma ColumnMembersCases(x: real, z: real, openings: seq<Opening>, width: real, length: real, g: real)
    requires g > 0.0
    ensures (forall k :: 0 <= k < |openings| ==> !Splits(openings[k], x, z, g / 2.0, width, length))
      ==> ColumnMembers(x, z, openings, width, length, g) == [Interval(0.0, g)]
    ensures forall k :: (0 <= k < |openings| && Splits(openings[k], x, z, g / 2.0, width, length)
      && (forall j :: 0 <= j < k ==> !Splits(openings[j], x, z, g / 2.0, width, length))
      ==> ColumnMembers(x, z, openings, width, length, g) == ColumnPieces(Some(Hit(openings[k].y1, openings[k].y2)), g))
  {
    var splits := o => Splits(o, x, z, g / 2.0, width, length);
    forall k | 0 <= k < |openings| && splits(openings[k]) && (forall j :: 0 <= j < k ==> !splits(openings[j]))
      ensures FirstHit(openings, splits) == Some(Hit(openings[k].y1, openings[k].y2))
    {
      var h := FirstHit(openings, splits);
      var k' :| 0 <= k' < |openings| && splits(openings[k']) && h.value == Hit(openings[k'].y1, openings[k'].y2)
        && forall j :: 0 <= j < k' ==> !splits(openings[j]);
      assert k' == k;
    }
  }

  /**
    The four corners count as front and back columns, so a side-wall door
    never splits a corner column, whatever its span.
  */
  lemma CornersAreFrontAndBack(width: real, length: real, openings: seq<Opening>, g: real)
    requires width > 0.0 && length >= WallTolerance && g > 0.0
    requires forall k :: 0 <= k < |openings| ==> !openings[k].wall.AlongWidth()
    ensures ClassifyWall(-width / 2.0, length / 2.0, width, length) == Some(Front)
    ensures ClassifyWall(width / 2.0, length / 2.0, width, length) == Some(Front)
    ensures ClassifyWall(-width / 2.0, -length / 2.0, width, length) == Some(Back)
    ensures ClassifyWall(width / 2.0, -length / 2.0, width, length) == Some(Back)
    ensures ColumnMembers(-width / 2.0, length / 2.0, openings, width, length, g) == [Interval(0.0, g)]
    ensures ColumnMembers(width / 2.0, -length / 2.0, openings, width, length, g) == [Interval(0.0, g)]
  {
    FrontOrBackUnsplit(-width / 2.0, length / 2.0, openings, width, length, g);
    FrontOrBackUnsplit(width / 2.0, -length / 2.0, openings, width, length, g);
  }

  /** A front or back column runs into no side-wall opening, so it stays whole. */
  lemma FrontOrBackUnsplit(x: real, z: real, openings: seq<Opening>, width: real, length: real, g: real)
    requires g > 0.0
    requires ClassifyWall(x, z, width, length) == Some(Front) || ClassifyWall(x, z, width, length) == Some(Back)
    requires forall k :: 0 <= k < |openings| ==> !openings[k].wall.AlongWidth()
    ensures ColumnMembers(x, z, openings, width, length, g) == [Interval(0.0, g)]
  {
    ColumnMembersCases(x, z, openings, width, length, g);
  }

  /** With more than one bay, the spacing exceeds 2.5 m. */
  lemma InteriorSpacingIsWide(span: real)
    requires span > 0.0 && Bays.Compartments(span) >= 2
    ensures Bays.Spacing(span) > 2.5
  {
    var c := Bays.Compartments(span) as real;
    var s := Bays.Spacing(span);
    assert s * c == span > (c - 1.0) * 5.0 >= 2.5 * c;
  }

  /**
    Every column the frame generates is classified onto the wall it was
    generated for, except the side columns at the corners, which count as
    front (z = +length/2) or back (z = -length/2).
  */
  lemma ColumnSitesClassified(width: real, length: real)
    requires width >= WallTolerance && length >= WallTolerance
    ensures forall k :: 0 <= k < |Bays.ColumnSites(width, length)| ==>
      var c := Bays.ColumnSites(width, length)[k];
      ClassifyWall(c.x, c.z, width, length) == Some(c.wall)
      || (c.z == length / 2.0 && ClassifyWall(c.x, c.z, width, length) == Some(Front))
      || (c.z == -length / 2.0 && ClassifyWall(c.x, c.z, width, length) == Some(Back))
  {
    var r := Bays.ColumnSites(width, length);
    var n := Bays.Compartments(length);
    Bays.ColumnsOnTheirWalls(width, length);
    forall k | 0 <= k < |r|
      ensures ClassifyWall(r[k].x, r[k].z, width, length) == Some(r[k].wall)
        || (r[k].z == length / 2.0 && ClassifyWall(r[k].x, r[k].z, width, length) == Some(Front))
        || (r[k].z == -length / 2.0 && ClassifyWall(r[k].x, r[k].z, width, length) == Some(Back))
    {
      var c := r[k];
      assert Bays.OnItsWall(c, width, length);
      if k < 2 * (n + 1) {
        var i := k / 2;
        assert c == Bays.SideColumns(width, length)[k];
        assert c.z == Bays.BoundaryAt(length, i);
        if 0 < i < n {
          InteriorSpacingIsWide(length);
          Bays.BoundariesIncrease(length, 0, i);
          Bays.BoundariesIncrease(length, i, n);
          Bays.BoundariesSpanTheWall(length);
          assert Bays.BoundaryAt(length, i) - Bays.BoundaryAt(length, i - 1) == Bays.Spacing(length);
          assert Bays.BoundaryAt(length, i + 1) - Bays.BoundaryAt(length, i) == Bays.Spacing(length);
          if i > 1 {
            Bays.BoundariesIncrease(length, 0, i - 1);
          }
          if i + 1 < n {
            Bays.BoundariesIncrease(length, i + 1, n);
          }
        } else if i == 0 {
          Bays.BoundariesSpanTheWall(length);
        } else {
          Bays.BoundariesSpanTheWall(length);
        }
      }
    }
  }

  // ---------------------------------------------------------------------
  // The older variant
  // ---------------------------------------------------------------------

  /**
    The older variant's same-wall test, keyed on the opening's wall: within
    0.1 of the opening's plane coordinate (z1 for front and back, x1 for the
    sides), with no priority between walls.
  */
  predicate SameWallBackup(o: Opening, x: real, z: real) {
    if o.wall.AlongWidth() then Abs(z - o.z1) < WallTolerance else Abs(x - o.x1) < WallTolerance
  }

  predicate SplitsBackup(o: Opening, x: real, z: real, h: real) {
    SameWallBackup(o, x, z)
    && o.y1 <= h <= o.y2
    && (if o.wall.AlongWidth() then o.x1 <= x <= o.x2 else o.z1 <= z <= o.z2)
  }

  /** What a column at (x, z) is rendered as in the older variant. */
  function ColumnMembersBackup(x: real, z: real, openings: seq<Opening>, g: real): seq<Interval> {
    ColumnPieces(FirstHit(openings, o => SplitsBackup(o, x, z, g / 2.0)), g)
  }

  /**
    A side-wall door whose span reaches the front corner and whose height
    reaches half the gutter splits the corner column in the older variant but
    not in the current one, where the corner counts as a front column.
  */
  lemma CornerSplitOnlyInBackup(item: ItemData, width: real, length: real, g: real)
    requires width > 0.0 && length >= WallTolerance && g > 0.0
    requires item.wall == Left
    requires item.position <= length <= item.position + Metres(item.width)
    requires g / 2.0 <= Metres(item.height)
    ensures SplitsBackup(ProjectItemBackup(item, width, length), -width / 2.0, length / 2.0, g / 2.0)
    ensures !Splits(ProjectItem(item, width, length), -width / 2.0, length / 2.0, g / 2.0, width, length)
    ensures ColumnMembersBackup(-width / 2.0, length / 2.0, [ProjectItemBackup(item, width, length)], g)
      == ColumnPieces(Some(Hit(0.0, Metres(item.height))), g)
    ensures ColumnMembers(-width / 2.0, length / 2.0, [ProjectItem(item, width, length)], width, length, g)
      == [Interval(0.0, g)]
  {
    var o := ProjectItemBackup(item, width, length);
    assert SplitsBackup(o, -width / 2.0, length / 2.0, g / 2.0);
    var splits := (p: Opening) => SplitsBackup(p, -width / 2.0, length / 2.0, g / 2.0);
    assert splits([o][0]);
    ColumnMembersCases(-width / 2.0, length / 2.0, [ProjectItem(item, width, length)], width, length, g);
  }

  /** The split pieces are the same rule in both variants; only the choice of opening differs. */
  lemma BackupSplitsTheSameWay(x: real, z: real, openings: seq<Opening>, g: real)
    requires g > 0.0
    ensures forall k :: (0 <= k < |openings| && SplitsBackup(openings[k], x, z, g / 2.0)
      && (forall j :: 0 <= j < k ==> !SplitsBackup(openings[j], x, z, g / 2.0))
      ==> ColumnMembersBackup(x, z, openings, g) == ColumnPieces(Some(Hit(openings[k].y1, openings[k].y2)), g))
    ensures (forall k :: 0 <= k < |openings| ==> !SplitsBackup(openings[k], x, z, g / 2.0))
      ==> ColumnMembersBackup(x, z, openings, g) == [Interval(0.0, g)]
  {
    var splits := o => SplitsBackup(o, x, z, g / 2.0);
    forall k | 0 <= k < |openings| && splits(openings[k]) && (forall j :: 0 <= j < k ==> !splits(openings[j]))
      ensures FirstHit(openings, splits) == Some(Hit(openings[k].y1, openings[k].y2))
    {
      var h := FirstHit(openings, splits);
      var k' :| 0 <= k' < |openings| && splits(openings[k']) && h.value == Hit(openings[k'].y1, openings[k'].y2)
        && forall j :: 0 <= j < k' ==> !splits(openings[j]);
      assert k' == k;
    }
  }
}
