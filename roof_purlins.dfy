/**
  Roof purlins along the rafter. One gutter purlin sits at the eaves, evenly
  spaced intermediate purlins (at most 1.5 m apart along the rafter) follow,
  and two ridge purlins sit 0.1 m apart at the peak. Every purlin is a pair of
  positions, one on the left roof face and one on the right.

  The rafter length is sqrt(halfWidth^2 + roofHeight^2) and the projection
  uses cos and sin of atan2(roofHeight, halfWidth). Here the rafter length is
  an input `slope` tied to the other two by slope^2 = halfWidth^2 +
  roofHeight^2, and cos and sin are the exact ratios halfWidth/slope and
  roofHeight/slope.
*/
module RoofPurlins {
  import opened Common

  /** The maximum spacing between purlins along the rafter, 1500 mm. */
  const MaxPurlinSpacing: real := 1.5

  /** The distance between the two ridge purlins, 100 mm. */
  const RidgeOffset: real := 0.1

  /** One purlin: its position on the left face and on the right face. */
  datatype Purlin = Purlin(leftX: real, leftY: real, rightX: real, rightY: real)

  /** slope is the rafter length of a roof with this half width and height. */
  predicate IsRafterLength(halfWidth: real, roofHeight: real, slope: real) {
    slope >= 0.0 && slope * slope == halfWidth * halfWidth + roofHeight * roofHeight
  }

  /**
    max(0, ceil(slope / 1.5) - 1): the fewest intermediate purlins that keep
    the rafter divided into pieces no longer than 1.5 m.
  */
  function IntermediateCount(slope: real): (n: int)
    requires slope >= 0.0
    ensures n >= 0
    ensures slope <= (n + 1) as real * MaxPurlinSpacing
    ensures n == 0 || n as real * MaxPurlinSpacing < slope
  {
    var spaces := Ceil(slope / MaxPurlinSpacing);
    if spaces - 1 > 0 then spaces - 1 else 0
  }

  /** The number of purlins the frame reports: gutter, intermediates and two ridge purlins. */
  function PurlinCount(slope: real): int
    requires slope >= 0.0
  {
    1 + IntermediateCount(slope) + 2
  }

  /** The gutter purlin, at the eaves on both faces. */
  function GutterPurlin(halfWidth: real, gutterHeight: real): Purlin {
    Purlin(-halfWidth, gutterHeight, halfWidth, gutterHeight)
  }

  /** The two ridge purlins, half the ridge offset either side of the apex. */
  function RidgePurlins(gutterHeight: real, roofHeight: real): seq<Purlin> {
    [Purlin(-RidgeOffset / 2.0, gutterHeight + roofHeight, -RidgeOffset / 2.0, gutterHeight + roofHeight),
     Purlin(RidgeOffset / 2.0, gutterHeight + roofHeight, RidgeOffset / 2.0, gutterHeight + roofHeight)]
  }

  /**
    Intermediate purlin i of n: at distance i * slope / (n + 1) along the
    rafter, projected with cos = halfWidth / slope and sin = roofHeight / slope.
  */
  function RafterPurlinAt(halfWidth: real, gutterHeight: real, roofHeight: real, slope: real, n: nat, i: int): Purlin
    requires slope > 0.0
  {
    var along := i as real * (slope / (n + 1) as real);
    var x := along * (halfWidth / slope);
    var y := along * (roofHeight / slope);
    Purlin(-halfWidth + x, gutterHeight + y, halfWidth - x, gutterHeight + y)
  }

  /** The first m of the n intermediate purlins, in order up the rafter. */
  function RafterIntermediates(halfWidth: real, gutterHeight: real, roofHeight: real, slope: real, n: nat, m: nat): seq<Purlin>
    requires m == 0 || slope > 0.0
  {
    seq(m, k requires 0 <= k < m => RafterPurlinAt(halfWidth, gutterHeight, roofHeight, slope, n, k + 1))
  }

  /** The purlin the rafter walk pushes at step i is intermediate i. */
  lemma PushedPurlin(halfWidth: real, gutterHeight: real, roofHeight: real, slope: real, n: nat, i: int, x: real, y: real)
    requires slope > 0.0
    requires x == i as real * (slope / (n + 1) as real) * (halfWidth / slope)
    requires y == i as real * (slope / (n + 1) as real) * (roofHeight / slope)
    ensures Purlin(-halfWidth + x, gutterHeight + y, halfWidth - x, gutterHeight + y)
      == RafterPurlinAt(halfWidth, gutterHeight, roofHeight, slope, n, i)
  {
  }

  /** One more step up the rafter appends intermediate m to the first m - 1. */
  lemma IntermediatesGrow(halfWidth: real, gutterHeight: real, roofHeight: real, slope: real, n: nat, m: nat)
    requires slope > 0.0 && m >= 1
    ensures RafterIntermediates(halfWidth, gutterHeight, roofHeight, slope, n, m)
      == RafterIntermediates(halfWidth, gutterHeight, roofHeight, slope, n, m - 1)
         + [RafterPurlinAt(halfWidth, gutterHeight, roofHeight, slope, n, m)]
  {
  }

  /** The purlins of the current frame, in the order they are pushed. */
  function RafterPurlins(width: real, gutterHeight: real, roofHeight: real, slope: real): (r: seq<Purlin>)
    requires slope >= 0.0
    ensures |r| == PurlinCount(slope)
  {
    var halfWidth := width / 2.0;
    var n := IntermediateCount(slope);
    [GutterPurlin(halfWidth, gutterHeight)]
      + RafterIntermediates(halfWidth, gutterHeight, roofHeight, slope, n, n)
      + RidgePurlins(gutterHeight, roofHeight)
  }

  /**
    The RoofPurlins computation: push the gutter purlin, walk the rafter in
    n + 1 equal steps pushing a purlin at each interior step, then push the
    two ridge purlins. The purlin-count and space-count properties it is
    handed are not read.
  */
  method ComputeRoofPurlins(width: real, gutterHeight: real, roofHeight: real, slope: real, numPurlins: int, numSpaces: int)
    returns (purlins: seq<Purlin>)
    requires IsRafterLength(width / 2.0, roofHeight, slope)
    ensures purlins == RafterPurlins(width, gutterHeight, roofHeight, slope)
  {
    var halfWidth := width / 2.0;
    var n := IntermediateCount(slope);
    purlins := [Purlin(-halfWidth, gutterHeight, halfWidth, gutterHeight)];
    if n > 0 {
      var actualSpacing := slope / (n + 1) as real;
      var cos := halfWidth / slope;
      var sin := roofHeight / slope;
      for i := 1 to n + 1
        invariant purlins == [GutterPurlin(halfWidth, gutterHeight)]
                               + RafterIntermediates(halfWidth, gutterHeight, roofHeight, slope, n, i - 1)
      {
        var along := i as real * actualSpacing;
        var x := along * cos;
        var y := along * sin;
        PushedPurlin(halfWidth, gutterHeight, roofHeight, slope, n, i, x, y);
        IntermediatesGrow(halfWidth, gutterHeight, roofHeight, slope, n, i);
        purlins := purlins + [Purlin(-halfWidth + x, gutterHeight + y, halfWidth - x, gutterHeight + y)];
      }
    } else {
      assert RafterIntermediates(halfWidth, gutterHeight, roofHeight, slope, n, n) == [];
    }
    purlins := purlins + [Purlin(-RidgeOffset / 2.0, gutterHeight + roofHeight, -RidgeOffset / 2.0, gutterHeight + roofHeight)];
    purlins := purlins + [Purlin(RidgeOffset / 2.0, gutterHeight + roofHeight, RidgeOffset / 2.0, gutterHeight + roofHeight)];
  }

  // ---------------------------------------------------------------------
  // Properties of the rafter walk
  // ---------------------------------------------------------------------

  /** (i * (s / c)) * (a / s) == i * a / c: the rafter length cancels out of the projection. */
  lemma CancelSlope(i: real, s: real, c: real, a: real)
    requires s > 0.0 && c > 0.0
    ensures (i * (s / c)) * (a / s) == i * a / c
  {
    var p := s / c;
    var q := a / s;
    assert p * c == s;
    assert q * s == a;
    assert (i * p * q) * c == i * (p * c) * q;
  }

  /**
    In closed form intermediate i sits i / (n + 1) of the way from the eaves
    to the apex: x = i * halfWidth / (n + 1) in from the eaves and
    y = i * roofHeight / (n + 1) above the gutter.
  */
  lemma RafterPurlinClosedForm(halfWidth: real, gutterHeight: real, roofHeight: real, slope: real, n: nat, i: int)
    requires slope > 0.0
    ensures var p := RafterPurlinAt(halfWidth, gutterHeight, roofHeight, slope, n, i);
      var x := i as real * halfWidth / (n + 1) as real;
      var y := i as real * roofHeight / (n + 1) as real;
      p == Purlin(-halfWidth + x, gutterHeight + y, halfWidth - x, gutterHeight + y)
  {
    CancelSlope(i as real, slope, (n + 1) as real, halfWidth);
    CancelSlope(i as real, slope, (n + 1) as real, roofHeight);
  }

  /**
    The actual spacing slope / (n + 1) along the rafter never exceeds 1.5 m,
    and one intermediate purlin fewer would exceed it.
  */
  lemma RafterSpacingAtMostMax(slope: real)
    requires slope > 0.0
    ensures var n := IntermediateCount(slope);
      slope / (n + 1) as real <= MaxPurlinSpacing
      && (n == 0 || slope / n as real > MaxPurlinSpacing)
  {
    var n := IntermediateCount(slope);
    var q := slope / (n + 1) as real;
    assert q * (n + 1) as real == slope;
    if q > MaxPurlinSpacing {
      assert false;
    }
    if n > 0 {
      var r := slope / n as real;
      assert r * n as real == slope;
      if r <= MaxPurlinSpacing {
        assert false;
      }
    }
  }

  /** j / m < 1 and 0 < j / m for 0 < j < m, scaled by a positive a. */
  lemma FractionInside(j: real, m: real, a: real)
    requires 0.0 < j < m && a > 0.0
    ensures 0.0 < j * a / m < a
  {
    var q := j * a / m;
    assert q * m == j * a;
    if q >= a {
      assert false;
    }
    if q <= 0.0 {
      assert false;
    }
  }

  /** The purlins in the order they are pushed: gutter, the intermediates, the two ridge purlins. */
  lemma RafterLayout(width: real, gutterHeight: real, roofHeight: real, slope: real)
    requires slope >= 0.0
    ensures var r := RafterPurlins(width, gutterHeight, roofHeight, slope);
      var n := IntermediateCount(slope);
      |r| == n + 3
      && r[0] == Purlin(-width / 2.0, gutterHeight, width / 2.0, gutterHeight)
      && r[n + 1] == Purlin(-0.05, gutterHeight + roofHeight, -0.05, gutterHeight + roofHeight)
      && r[n + 2] == Purlin(0.05, gutterHeight + roofHeight, 0.05, gutterHeight + roofHeight)
      && (forall k :: 1 <= k <= n ==> r[k] == RafterPurlinAt(width / 2.0, gutterHeight, roofHeight, slope, n, k))
  {
    var r := RafterPurlins(width, gutterHeight, roofHeight, slope);
    var n := IntermediateCount(slope);
    var mid := RafterIntermediates(width / 2.0, gutterHeight, roofHeight, slope, n, n);
    assert r == [GutterPurlin(width / 2.0, gutterHeight)] + mid + RidgePurlins(gutterHeight, roofHeight);
    forall k | 1 <= k <= n
      ensures r[k] == RafterPurlinAt(width / 2.0, gutterHeight, roofHeight, slope, n, k)
    {
      assert r[k] == mid[k - 1];
    }
  }

  /**
    On a real roof every intermediate purlin sits strictly between the eaves
    and the apex: -halfWidth < leftX < 0 and gutter < leftY < peak.
  */
  lemma IntermediatesInsideTheRoof(width: real, gutterHeight: real, roofHeight: real, slope: real)
    requires width > 0.0 && roofHeight > 0.0 && slope > 0.0
    ensures var r := RafterPurlins(width, gutterHeight, roofHeight, slope);
      forall k :: 1 <= k <= IntermediateCount(slope) ==>
        -width / 2.0 < r[k].leftX < 0.0 && gutterHeight < r[k].leftY < gutterHeight + roofHeight
  {
    var r := RafterPurlins(width, gutterHeight, roofHeight, slope);
    var n := IntermediateCount(slope);
    RafterLayout(width, gutterHeight, roofHeight, slope);
    forall k | 1 <= k <= n
      ensures -width / 2.0 < r[k].leftX < 0.0 && gutterHeight < r[k].leftY < gutterHeight + roofHeight
    {
      IntermediateInside(width / 2.0, gutterHeight, roofHeight, slope, n, k);
    }
  }

  /** Intermediate k of n lies strictly between the eaves and the apex. */
  lemma IntermediateInside(halfWidth: real, gutterHeight: real, roofHeight: real, slope: real, n: nat, k: int)
    requires halfWidth > 0.0 && roofHeight > 0.0 && slope > 0.0 && 1 <= k <= n
    ensures var p := RafterPurlinAt(halfWidth, gutterHeight, roofHeight, slope, n, k);
      -halfWidth < p.leftX < 0.0 && gutterHeight < p.leftY < gutterHeight + roofHeight
  {
    RafterPurlinClosedForm(halfWidth, gutterHeight, roofHeight, slope, n, k);
    FractionInside(k as real, (n + 1) as real, halfWidth);
    FractionInside(k as real, (n + 1) as real, roofHeight);
  }

  /**
    Consecutive purlins from the gutter up (gutter and intermediates) are one
    equal step apart: halfWidth / (n + 1) across, roofHeight / (n + 1) up,
    which is slope / (n + 1) along the rafter.
  */
  lemma EquallySpacedAlongTheRafter(width: real, gutterHeight: real, roofHeight: real, slope: real)
    requires slope > 0.0 && IsRafterLength(width / 2.0, roofHeight, slope)
    ensures var r := RafterPurlins(width, gutterHeight, roofHeight, slope);
      var n := IntermediateCount(slope);
      forall k :: 0 <= k < n ==>
        r[k + 1].leftX - r[k].leftX == width / 2.0 / (n + 1) as real
        && r[k + 1].leftY - r[k].leftY == roofHeight / (n + 1) as real
  {
    var r := RafterPurlins(width, gutterHeight, roofHeight, slope);
    var n := IntermediateCount(slope);
    RafterLayout(width, gutterHeight, roofHeight, slope);
    forall k | 0 <= k < n
      ensures r[k + 1].leftX - r[k].leftX == width / 2.0 / (n + 1) as real
        && r[k + 1].leftY - r[k].leftY == roofHeight / (n + 1) as real
    {
      OneStepUp(width / 2.0, gutterHeight, roofHeight, slope, n, k);
    }
  }

  /** That step of halfWidth / (n + 1) across and roofHeight / (n + 1) up is slope / (n + 1) long on the rafter. */
  lemma StepIsTheActualSpacing(width: real, roofHeight: real, slope: real)
    requires slope > 0.0 && IsRafterLength(width / 2.0, roofHeight, slope)
    ensures var n := IntermediateCount(slope);
      var dx := width / 2.0 / (n + 1) as real;
      var dy := roofHeight / (n + 1) as real;
      dx * dx + dy * dy == (slope / (n + 1) as real) * (slope / (n + 1) as real)
  {
    StepOnTheRafter(width / 2.0, roofHeight, slope, (IntermediateCount(slope) + 1) as real);
  }

  /** From purlin k to purlin k + 1 (k = 0 being the gutter) is one step of halfWidth / (n + 1) across and roofHeight / (n + 1) up. */
  lemma OneStepUp(halfWidth: real, gutterHeight: real, roofHeight: real, slope: real, n: nat, k: nat)
    requires slope > 0.0 && k < n
    ensures var lower := if k == 0 then GutterPurlin(halfWidth, gutterHeight)
                         else RafterPurlinAt(halfWidth, gutterHeight, roofHeight, slope, n, k);
      var upper := RafterPurlinAt(halfWidth, gutterHeight, roofHeight, slope, n, k + 1);
      upper.leftX - lower.leftX == halfWidth / (n + 1) as real
      && upper.leftY - lower.leftY == roofHeight / (n + 1) as real
  {
    var c := (n + 1) as real;
    RafterPurlinClosedForm(halfWidth, gutterHeight, roofHeight, slope, n, k + 1);
    RafterPurlinClosedForm(halfWidth, gutterHeight, roofHeight, slope, n, k);
    DivideSum(k, halfWidth, c);
    DivideSum(k, roofHeight, c);
  }

  /** (k + 1) * a / c == k * a / c + a / c. */
  lemma DivideSum(k: int, a: real, c: real)
    requires c > 0.0
    ensures (k + 1) as real * a / c == k as real * a / c + a / c
  {
    var p, q := k as real * a / c, a / c;
    assert p * c == k as real * a && q * c == a;
    assert (p + q) * c == (k + 1) as real * a;
  }

  /** (a/c)^2 + (b/c)^2 == (s/c)^2 when s^2 == a^2 + b^2. */
  lemma StepOnTheRafter(a: real, b: real, s: real, c: real)
    requires c > 0.0 && s * s == a * a + b * b
    ensures (a / c) * (a / c) + (b / c) * (b / c) == (s / c) * (s / c)
  {
    var t := 1.0 / c;
    assert a / c == a * t;
    assert b / c == b * t;
    assert s / c == s * t;
    assert (a * t) * (a * t) + (b * t) * (b * t) == (a * a + b * b) * (t * t);
    assert (s * t) * (s * t) == (s * s) * (t * t);
  }

  /** On a roof with positive height the purlins climb strictly from the gutter up to the last intermediate. */
  lemma HeightsIncrease(width: real, gutterHeight: real, roofHeight: real, slope: real)
    requires roofHeight > 0.0 && slope > 0.0
    ensures var r := RafterPurlins(width, gutterHeight, roofHeight, slope);
      forall j, k :: 0 <= j < k <= IntermediateCount(slope) ==> r[j].leftY < r[k].leftY
  {
    var r := RafterPurlins(width, gutterHeight, roofHeight, slope);
    var n := IntermediateCount(slope);
    forall j, k | 0 <= j < k <= n ensures r[j].leftY < r[k].leftY {
      LeftHeightAt(width, gutterHeight, roofHeight, slope, j);
      LeftHeightAt(width, gutterHeight, roofHeight, slope, k);
      RatioIncreases(j as real, k as real, roofHeight, (n + 1) as real);
    }
  }

  /** The gutter purlin and intermediate k sit k / (n + 1) of the roof height above the gutter. */
  lemma LeftHeightAt(width: real, gutterHeight: real, roofHeight: real, slope: real, k: int)
    requires slope > 0.0 && 0 <= k <= IntermediateCount(slope)
    ensures RafterPurlins(width, gutterHeight, roofHeight, slope)[k].leftY
      == gutterHeight + k as real * roofHeight / (IntermediateCount(slope) + 1) as real
  {
    RafterLayout(width, gutterHeight, roofHeight, slope);
    if k > 0 {
      RafterPurlinClosedForm(width / 2.0, gutterHeight, roofHeight, slope, IntermediateCount(slope), k);
    }
  }

  /** j * a / c < k * a / c for j < k and positive a and c. */
  lemma RatioIncreases(j: real, k: real, a: real, c: real)
    requires j < k && a > 0.0 && c > 0.0
    ensures j * a / c < k * a / c
  {
    var p, q := j * a / c, k * a / c;
    assert p * c == j * a && q * c == k * a;
    assert j * a < k * a;
    if p >= q {
      assert false;
    }
  }

  /**
    The gutter purlin and every intermediate purlin are mirror images across
    the ridge: rightX == -leftX at the same height.
  */
  lemma MirrorSymmetric(width: real, gutterHeight: real, roofHeight: real, slope: real)
    requires slope >= 0.0
    ensures var r := RafterPurlins(width, gutterHeight, roofHeight, slope);
      forall k :: 0 <= k <= IntermediateCount(slope) ==> r[k].rightX == -r[k].leftX && r[k].rightY == r[k].leftY
  {
    RafterLayout(width, gutterHeight, roofHeight, slope);
  }

  // ---------------------------------------------------------------------
  // The older variant: linear interpolation from eaves to apex
  // ---------------------------------------------------------------------

  /** The older variant's purlin count: gutter, numSpaces - 1 intermediates, two ridge purlins. */
  function BackupPurlinCount(numSpaces: int): int {
    1 + (numSpaces - 1) + 2
  }

  /** The older variant's intermediate i: t = i / numSpaces of the way, x = t * halfWidth, y = (x / halfWidth) * roofHeight. */
  function LinearPurlinAt(halfWidth: real, gutterHeight: real, roofHeight: real, numSpaces: int, i: int): Purlin
    requires numSpaces >= 1 && halfWidth != 0.0
  {
    var t := i as real * (1.0 / numSpaces as real);
    var x := t * halfWidth;
    var y := (x / halfWidth) * roofHeight;
    Purlin(-halfWidth + x, gutterHeight + y, halfWidth - x, gutterHeight + y)
  }

  /** The older variant's first m intermediates. */
  function LinearIntermediates(halfWidth: real, gutterHeight: real, roofHeight: real, numSpaces: int, m: nat): seq<Purlin>
    requires numSpaces >= 1 && halfWidth != 0.0
  {
    seq(m, k requires 0 <= k < m => LinearPurlinAt(halfWidth, gutterHeight, roofHeight, numSpaces, k + 1))
  }

  /** The older variant's purlins in push order. */
  function LinearPurlins(width: real, gutterHeight: real, roofHeight: real, numSpaces: int): (r: seq<Purlin>)
    requires numSpaces >= 1 && width > 0.0
    ensures |r| == BackupPurlinCount(numSpaces)
  {
    var halfWidth := width / 2.0;
    [GutterPurlin(halfWidth, gutterHeight)]
      + LinearIntermediates(halfWidth, gutterHeight, roofHeight, numSpaces, numSpaces - 1)
      + RidgePurlins(gutterHeight, roofHeight)
  }

  /** The older variant's RoofPurlins loop: for i from 1 while i < numSpaces, push the interpolated purlin. */
  method BackupRoofPurlins(width: real, gutterHeight: real, roofHeight: real, numSpaces: int) returns (purlins: seq<Purlin>)
    requires numSpaces >= 1 && width > 0.0
    ensures purlins == LinearPurlins(width, gutterHeight, roofHeight, numSpaces)
  {
    var halfWidth := width / 2.0;
    var spacing := 1.0 / numSpaces as real;
    purlins := [Purlin(-halfWidth, gutterHeight, halfWidth, gutterHeight)];
    var i := 1;
    while i < numSpaces
      invariant 1 <= i <= numSpaces
      invariant purlins == [GutterPurlin(halfWidth, gutterHeight)]
                             + LinearIntermediates(halfWidth, gutterHeight, roofHeight, numSpaces, i - 1)
    {
      var t := i as real * spacing;
      var x := t * halfWidth;
      var y := (x / halfWidth) * roofHeight;
      assert Purlin(-halfWidth + x, gutterHeight + y, halfWidth - x, gutterHeight + y)
        == LinearPurlinAt(halfWidth, gutterHeight, roofHeight, numSpaces, i);
      assert LinearIntermediates(halfWidth, gutterHeight, roofHeight, numSpaces, i)
        == LinearIntermediates(halfWidth, gutterHeight, roofHeight, numSpaces, i - 1)
           + [LinearPurlinAt(halfWidth, gutterHeight, roofHeight, numSpaces, i)];
      purlins := purlins + [Purlin(-halfWidth + x, gutterHeight + y, halfWidth - x, gutterHeight + y)];
      i := i + 1;
    }
    purlins := purlins + [Purlin(-RidgeOffset / 2.0, gutterHeight + roofHeight, -RidgeOffset / 2.0, gutterHeight + roofHeight)];
    purlins := purlins + [Purlin(RidgeOffset / 2.0, gutterHeight + roofHeight, RidgeOffset / 2.0, gutterHeight + roofHeight)];
  }

  /** The older variant's intermediate i in closed form: i / numSpaces of the way across and up. */
  lemma LinearPurlinClosedForm(halfWidth: real, gutterHeight: real, roofHeight: real, numSpaces: int, i: int)
    requires numSpaces >= 1 && halfWidth != 0.0
    ensures var p := LinearPurlinAt(halfWidth, gutterHeight, roofHeight, numSpaces, i);
      var x := i as real * halfWidth / numSpaces as real;
      var y := i as real * roofHeight / numSpaces as real;
      p == Purlin(-halfWidth + x, gutterHeight + y, halfWidth - x, gutterHeight + y)
  {
    var c := numSpaces as real;
    var t := i as real * (1.0 / c);
    assert (1.0 / c) * c == 1.0;
    assert t * c == i as real;
    var x := t * halfWidth;
    assert x * c == i as real * halfWidth;
    assert x / halfWidth == t by {
      assert t * halfWidth == x;
    }
    assert (i as real * halfWidth / c) * c == i as real * halfWidth;
    assert t * roofHeight * c == i as real * roofHeight;
    assert (i as real * roofHeight / c) * c == i as real * roofHeight;
  }

  /**
    With numSpaces = ceil(slope / 1.5), as the older variant computes it,
    linear interpolation puts every purlin exactly where the current rafter
    walk does, and the two variants report the same purlin count.
  */
  lemma LinearMatchesRafter(width: real, gutterHeight: real, roofHeight: real, slope: real)
    requires width > 0.0 && slope > 0.0
    ensures Ceil(slope / MaxPurlinSpacing) >= 1
    ensures BackupPurlinCount(Ceil(slope / MaxPurlinSpacing)) == PurlinCount(slope)
    ensures LinearPurlins(width, gutterHeight, roofHeight, Ceil(slope / MaxPurlinSpacing))
      == RafterPurlins(width, gutterHeight, roofHeight, slope)
  {
    var spaces := Ceil(slope / MaxPurlinSpacing);
    var n := IntermediateCount(slope);
    assert n == spaces - 1;
    var hw := width / 2.0;
    var lin := LinearIntermediates(hw, gutterHeight, roofHeight, spaces, n);
    var raf := RafterIntermediates(hw, gutterHeight, roofHeight, slope, n, n);
    forall k | 0 <= k < n ensures lin[k] == raf[k] {
      LinearPurlinClosedForm(hw, gutterHeight, roofHeight, spaces, k + 1);
      RafterPurlinClosedForm(hw, gutterHeight, roofHeight, slope, n, k + 1);
    }
    assert lin == raf;
  }

  /** The default 8 m barn with a 2 m roof (rafter sqrt(20), about 4.47 m): two intermediates, five purlins. */
  lemma DefaultBarnRoof(slope: real)
    requires IsRafterLength(4.0, 2.0, slope)
    ensures IntermediateCount(slope) == 2 && PurlinCount(slope) == 5
  {
    assert slope * slope == 20.0;
    if slope <= 4.4 {
      SquareMonotone(slope, 4.4);
      assert false;
    }
    if slope >= 4.5 {
      SquareMonotone(4.5, slope);
      assert false;
    }
    assert 2.9 < slope / MaxPurlinSpacing <= 3.0;
  }

  /** Squaring is monotone on non-negative reals. */
  lemma SquareMonotone(a: real, b: real)
    requires 0.0 <= a <= b
    ensures a * a <= b * b
  {
    assert a * a <= a * b;
    assert a * b <= b * b;
  }
}
