/**
  Bay arithmetic and column sites of the steel frame. A span is divided into
  the fewest compartments of at most 5 m each, spread evenly; a column stands
  at every compartment boundary. The left and right walls carry a column at
  every boundary along the length (corners included); the front and back walls
  carry one at every interior boundary along the width only, so no corner is
  produced twice.
*/
module Bays {
  import opened Common

  /** The maximum column spacing, 5000 mm. */
  const MaxSpacing: real := 5.0

  /** Math.ceil(span / maxSpacing): the fewest compartments no wider than MaxSpacing. */
  function Compartments(span: real): (c: int)
    requires span > 0.0
    ensures c >= 1
    ensures span <= c as real * MaxSpacing
    ensures c == 1 || (c - 1) as real * MaxSpacing < span
  {
    Ceil(span / MaxSpacing)
  }

  /** The even spacing span / compartments. */
  function Spacing(span: real): (s: real)
    requires span > 0.0
    ensures 0.0 < s <= MaxSpacing
    ensures s * Compartments(span) as real == span
  {
    var c := Compartments(span);
    assert span / c as real <= MaxSpacing by {
      assert span <= c as real * MaxSpacing;
    }
    span / c as real
  }

  /** The along-wall coordinate of boundary i: -span/2 + i * spacing. */
  function BoundaryAt(span: real, i: int): real
    requires span > 0.0
  {
    -span / 2.0 + i as real * Spacing(span)
  }

  /** The coordinates of all compartments + 1 boundaries (the beams) along a span. */
  function Boundaries(span: real): (r: seq<real>)
    requires span > 0.0
    ensures |r| == Compartments(span) + 1
    ensures forall i :: 0 <= i < |r| ==> r[i] == BoundaryAt(span, i)
  {
    seq(Compartments(span) + 1, i requires 0 <= i <= Compartments(span) => BoundaryAt(span, i))
  }

  /**
    The first boundary is the negative wall edge and the last lands exactly on
    the positive edge; consecutive boundaries are one spacing (at most 5 m)
    apart, so the boundaries increase strictly and stay on the wall.
  */
  lemma BoundariesSpanTheWall(span: real)
    requires span > 0.0
    ensures Boundaries(span)[0] == -span / 2.0
    ensures Boundaries(span)[|Boundaries(span)| - 1] == span / 2.0
    ensures forall i :: 0 < i <= Compartments(span) ==> BoundaryAt(span, i) - BoundaryAt(span, i - 1) == Spacing(span)
    ensures forall i :: 0 <= i < |Boundaries(span)| ==> -span / 2.0 <= Boundaries(span)[i] <= span / 2.0
  {
    var r := Boundaries(span);
    var c := Compartments(span);
    var s := Spacing(span);
    assert r[c] == -span / 2.0 + c as real * s;
    forall i | 0 <= i < |r| ensures -span / 2.0 <= r[i] <= span / 2.0 {
      assert i as real * s + (c - i) as real * s == c as real * s;
      assert 0.0 <= i as real * s && 0.0 <= (c - i) as real * s;
    }
  }

  /** Boundaries increase strictly with their index. */
  lemma BoundariesIncrease(span: real, i: int, j: int)
    requires span > 0.0
    requires 0 <= i < j <= Compartments(span)
    ensures BoundaryAt(span, i) < BoundaryAt(span, j)
  {
    var s := Spacing(span);
    assert j as real * s - i as real * s == (j - i) as real * s;
  }

  /** A column site: its plan position and the wall label it is rendered with. */
  datatype Column = Column(x: real, z: real, wall: Wall)

  /**
    The length loop: for every boundary along the length, a left column at
    x = -width/2 and a right column at x = +width/2, in that order.
  */
  function SideColumns(width: real, length: real): (r: seq<Column>)
    requires width > 0.0 && length > 0.0
    ensures |r| == 2 * (Compartments(length) + 1)
  {
    var n := Compartments(length) + 1;
    seq(2 * n, k requires 0 <= k < 2 * n =>
      if k % 2 == 0 then Column(-width / 2.0, BoundaryAt(length, k / 2), Left)
      else Column(width / 2.0, BoundaryAt(length, k / 2), Right))
  }

  /**
    The width loop: for every interior boundary along the width, a front
    column at z = +length/2 and a back column at z = -length/2.
  */
  function FrontBackColumns(width: real, length: real): (r: seq<Column>)
    requires width > 0.0 && length > 0.0
    ensures |r| == 2 * (Compartments(width) - 1)
  {
    var m := Compartments(width) - 1;
    seq(2 * m, k requires 0 <= k < 2 * m =>
      if k % 2 == 0 then Column(BoundaryAt(width, k / 2 + 1), length / 2.0, Front)
      else Column(BoundaryAt(width, k / 2 + 1), -length / 2.0, Back))
  }

  /** Every column of the frame, in render order. */
  function ColumnSites(width: real, length: real): (r: seq<Column>)
    requires width > 0.0 && length > 0.0
    ensures |r| == 2 * (Compartments(length) + 1) + 2 * (Compartments(width) - 1)
  {
    SideColumns(width, length) + FrontBackColumns(width, length)
  }

  /** A column stands on the wall its label names, within that wall's extent. */
  ghost predicate OnItsWall(c: Column, width: real, length: real) {
    match c.wall
    case Left => c.x == -width / 2.0 && -length / 2.0 <= c.z <= length / 2.0
    case Right => c.x == width / 2.0 && -length / 2.0 <= c.z <= length / 2.0
    case Front => c.z == length / 2.0 && -width / 2.0 < c.x < width / 2.0
    case Back => c.z == -length / 2.0 && -width / 2.0 < c.x < width / 2.0
  }

  lemma InteriorBoundary(span: real, i: int)
    requires span > 0.0 && 0 < i < Compartments(span)
    ensures -span / 2.0 < BoundaryAt(span, i) < span / 2.0
  {
    BoundariesIncrease(span, 0, i);
    BoundariesIncrease(span, i, Compartments(span));
    BoundariesSpanTheWall(span);
  }

  /** Every column stands on its labelled wall; front and back columns are strictly between the corners. */
  lemma ColumnsOnTheirWalls(width: real, length: real)
    requires width > 0.0 && length > 0.0
    ensures forall k :: 0 <= k < |ColumnSites(width, length)| ==> OnItsWall(ColumnSites(width, length)[k], width, length)
  {
    var sides := SideColumns(width, length);
    var ends := FrontBackColumns(width, length);
    var r := ColumnSites(width, length);
    BoundariesSpanTheWall(length);
    forall k | 0 <= k < |r| ensures OnItsWall(r[k], width, length) {
      if k < |sides| {
        assert r[k] == sides[k];
        assert Boundaries(length)[k / 2] == BoundaryAt(length, k / 2);
      } else {
        var j := k - |sides|;
        assert r[k] == ends[j];
        InteriorBoundary(width, j / 2 + 1);
      }
    }
  }

  /**
    No two columns share a plan position: side columns differ in x or in
    their boundary, and front/back columns stand strictly inside the corners.
  */
  lemma ColumnsDistinct(width: real, length: real)
    requires width > 0.0 && length > 0.0
    ensures forall i, j :: 0 <= i < j < |ColumnSites(width, length)| ==>
      (ColumnSites(width, length)[i].x, ColumnSites(width, length)[i].z) != (ColumnSites(width, length)[j].x, ColumnSites(width, length)[j].z)
  {
    var sides := SideColumns(width, length);
    var r := ColumnSites(width, length);
    ColumnsOnTheirWalls(width, length);
    forall i, j | 0 <= i < j < |r| ensures (r[i].x, r[i].z) != (r[j].x, r[j].z) {
      assert OnItsWall(r[i], width, length) && OnItsWall(r[j], width, length);
      if j < |sides| {
        assert r[i] == sides[i] && r[j] == sides[j];
        if i % 2 == j % 2 {
          assert i / 2 < j / 2;
          BoundariesIncrease(length, i / 2, j / 2);
        }
      } else if i >= |sides| {
        var a := i - |sides|;
        var b := j - |sides|;
        if a % 2 == b % 2 {
          assert a / 2 < b / 2;
          BoundariesIncrease(width, a / 2 + 1, b / 2 + 1);
        }
      }
    }
  }

  /**
    Every boundary of the front wall carries a column: the interior ones by
    the width loop, the two corners by the length loop.
  */
  lemma EveryFrontBoundaryHasAColumn(width: real, length: real, i: int)
    requires width > 0.0 && length > 0.0
    requires 0 <= i <= Compartments(width)
    ensures exists k :: (0 <= k < |ColumnSites(width, length)| &&
      ColumnSites(width, length)[k].x == BoundaryAt(width, i) && ColumnSites(width, length)[k].z == length / 2.0)
  {
    var r := ColumnSites(width, length);
    var sides := SideColumns(width, length);
    var n := Compartments(length);
    BoundariesSpanTheWall(width);
    BoundariesSpanTheWall(length);
    assert BoundaryAt(length, n) == length / 2.0;
    if i == 0 {
      assert r[2 * n] == sides[2 * n];
      assert r[2 * n].x == BoundaryAt(width, 0);
    } else if i == Compartments(width) {
      assert r[2 * n + 1] == sides[2 * n + 1];
      assert r[2 * n + 1].x == BoundaryAt(width, Compartments(width));
    } else {
      var k := |sides| + 2 * (i - 1);
      assert r[k] == FrontBackColumns(width, length)[2 * (i - 1)];
    }
  }

  /** The default 8 m x 12 m barn: 2 bays of 4 m across, 3 bays of 4 m along, ten columns. */
  lemma DefaultBarnBays()
    ensures Compartments(8.0) == 2 && Spacing(8.0) == 4.0
    ensures Compartments(12.0) == 3 && Spacing(12.0) == 4.0
    ensures |ColumnSites(8.0, 12.0)| == 10
  {
    assert Ceil(8.0 / MaxSpacing) == 2;
    assert Ceil(12.0 / MaxSpacing) == 3;
  }
}
