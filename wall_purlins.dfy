/**
  Horizontal wall purlins. Every wall has purlins at 0, 0.9 and 2.1 m; above
  that the front and back walls get one every 1.5 m strictly below the peak,
  and the side walls one every 1.5 m strictly below the gutter plus one at the
  gutter itself. At each height a wall's purlin is the wall's span minus the
  spans of the doors that cover that height; above the gutter the front and
  back purlins narrow to fit inside the gable.
*/
module WallPurlins {
  import opened Common
  import opened Intervals
  import opened Openings

  /** The purlin heights every wall has (0, 900 and 2100 mm). */
  const FixedHeights: seq<real> := [0.0, 0.9, 2.1]

  /** The maximum vertical distance between the upper wall purlins, 1500 mm. */
  const WallPurlinStep: real := 1.5

  /** The older variant's maximum vertical distance between wall purlins, 2500 mm. */
  const BackupPurlinStep: real := 2.5

  /**
    The heights a "step up while the next step stays strictly below the limit"
    loop pushes, starting from (but not including) start.
  */
  function Stepped(start: real, step: real, limit: real): (r: seq<real>)
    requires step > 0.0
    decreases ((limit - start) / step).Floor
  {
    if start + step < limit then
      StepDown(limit - start, step);
      [start + step] + Stepped(start + step, step, limit)
    else []
  }

  /**
    The pushed heights are start + step, start + 2 step, ... : each strictly
    below the limit, none missed, and the next step would reach the limit, so
    the last gap to the limit is at most one step.
  */
  lemma {:induction false} SteppedClosedForm(start: real, step: real, limit: real)
    requires step > 0.0
    ensures StepsFrom(Stepped(start, step, limit), start, step, limit)
    ensures start + (|Stepped(start, step, limit)| + 1) as real * step >= limit
    ensures limit - (start + |Stepped(start, step, limit)| as real * step) <= step
    decreases ((limit - start) / step).Floor
  {
    if start + step < limit {
      SteppedUnfold(start, step, limit);
      var rest := Stepped(start + step, step, limit);
      SteppedClosedForm(start + step, step, limit);
      var r := Stepped(start, step, limit);
      assert r == [start + step] + rest;
      assert |r| == |rest| + 1;
      ConsClosedForm(start, step, limit, rest, r);
      assert (|r| + 1) as real * step == (|rest| + 1) as real * step + step;
      assert start + (|r| + 1) as real * step == (start + step) + (|rest| + 1) as real * step;
      assert |r| as real * step == |rest| as real * step + step;
      assert start + |r| as real * step == (start + step) + |rest| as real * step;
    } else {
      assert Stepped(start, step, limit) == [];
    }
  }

  /** The k-th height of hs is start + (k + 1) step, strictly below the limit. */
  ghost predicate StepsFrom(hs: seq<real>, start: real, step: real, limit: real) {
    forall k :: 0 <= k < |hs| ==> hs[k] == start + (k + 1) as real * step < limit
  }

  /** Putting the first step in front of the closed form starting one step later gives the closed form. */
  lemma ConsClosedForm(start: real, step: real, limit: real, rest: seq<real>, r: seq<real>)
    requires start + step < limit && r == [start + step] + rest
    requires StepsFrom(rest, start + step, step, limit)
    ensures StepsFrom(r, start, step, limit)
  {
    forall k | 0 <= k < |r| ensures r[k] == start + (k + 1) as real * step < limit {
      if k == 0 {
        assert r[0] == start + step;
      } else {
        assert r[k] == rest[k - 1] == (start + step) + k as real * step;
        assert (k + 1) as real * step == k as real * step + step;
      }
    }
  }

  /** Consecutive pushed heights differ by exactly one step. */
  lemma SteppedIsTheGrid(start: real, step: real, limit: real)
    requires step > 0.0
    ensures forall k :: 0 < k < |Stepped(start, step, limit)| ==>
      Stepped(start, step, limit)[k] - Stepped(start, step, limit)[k - 1] == step
  {
    var r := Stepped(start, step, limit);
    SteppedClosedForm(start, step, limit);
    forall k | 0 < k < |r| ensures r[k] - r[k - 1] == step {
      assert (k + 1) as real * step == k as real * step + step;
    }
  }

  /** The height loop of the wall frame: cur := start; while cur + step < limit { cur += step; push cur }. */
  method SteppedHeights(start: real, step: real, limit: real) returns (heights: seq<real>)
    requires step > 0.0
    ensures heights == Stepped(start, step, limit)
  {
    heights := [];
    var cur := start;
    while cur + step < limit
      invariant heights + Stepped(cur, step, limit) == Stepped(start, step, limit)
      decreases ((limit - cur) / step).Floor
    {
      StepDown(limit - cur, step);
      cur := cur + step;
      heights := heights + [cur];
    }
  }

  /**
    The extra heights of the current frame: front and back step from 2.1 m
    while the next height stays below the peak g + roofHeight; the sides step
    below the gutter g and then add the gutter itself.
  */
  method ExtraHeights(g: real, roofHeight: real) returns (frontBack: seq<real>, sides: seq<real>)
    ensures frontBack == Stepped(2.1, WallPurlinStep, g + roofHeight)
    ensures sides == Stepped(2.1, WallPurlinStep, g) + [g]
  {
    frontBack := SteppedHeights(2.1, WallPurlinStep, g + roofHeight);
    sides := SteppedHeights(2.1, WallPurlinStep, g);
    sides := sides + [g];
  }

  /** All purlin heights of a wall, in render order: the fixed ones, then the wall's extras. */
  function WallHeights(wall: Wall, g: real, roofHeight: real): (r: seq<real>)
    ensures |r| >= 3 && r[..3] == FixedHeights
    ensures !wall.AlongWidth() ==> r[|r| - 1] == g
  {
    if wall.AlongWidth() then FixedHeights + Stepped(2.1, WallPurlinStep, g + roofHeight)
    else FixedHeights + Stepped(2.1, WallPurlinStep, g) + [g]
  }

  /**
    Front and back purlins stay strictly below the peak and side purlins at
    or below the gutter (for a gutter above 2.1 m); the side walls always end
    with a purlin at the gutter.
  */
  lemma WallHeightsBounded(g: real, roofHeight: real)
    requires g > 2.1 && roofHeight > 0.0
    ensures forall k :: 0 <= k < |WallHeights(Front, g, roofHeight)| ==> 0.0 <= WallHeights(Front, g, roofHeight)[k] < g + roofHeight
    ensures forall k :: 0 <= k < |WallHeights(Left, g, roofHeight)| ==> 0.0 <= WallHeights(Left, g, roofHeight)[k] <= g
    ensures WallHeights(Left, g, roofHeight)[|WallHeights(Left, g, roofHeight)| - 1] == g
  {
    SteppedClosedForm(2.1, WallPurlinStep, g + roofHeight);
    SteppedClosedForm(2.1, WallPurlinStep, g);
    var f := WallHeights(Front, g, roofHeight);
    var e := Stepped(2.1, WallPurlinStep, g + roofHeight);
    forall k | 0 <= k < |f| ensures 0.0 <= f[k] < g + roofHeight {
      if k >= 3 {
        assert f[k] == e[k - 3];
      }
    }
    var l := WallHeights(Left, g, roofHeight);
    var es := Stepped(2.1, WallPurlinStep, g);
    forall k | 0 <= k < |l| ensures 0.0 <= l[k] <= g {
      if 3 <= k < |l| - 1 {
        assert l[k] == es[k - 3];
      }
    }
  }

  /**
    For the default 3 m gutter and any roof height between 0.6 m and 2.1 m
    (25 degrees on an 8 m width gives about 1.866 m), the front and back walls
    get one extra purlin at 3.6 m, above the gutter, and the sides only the
    gutter purlin.
  */
  lemma DefaultBarnHeights(roofHeight: real)
    requires 0.6 < roofHeight <= 2.1
    ensures WallHeights(Front, 3.0, roofHeight) == [0.0, 0.9, 2.1, 3.6]
    ensures WallHeights(Left, 3.0, roofHeight) == [0.0, 0.9, 2.1, 3.0]
  {
    assert Stepped(3.6, WallPurlinStep, 3.0 + roofHeight) == [];
    assert Stepped(2.1, WallPurlinStep, 3.0 + roofHeight) == [3.6];
    assert Stepped(2.1, WallPurlinStep, 3.0) == [];
  }

  /** Each height lies strictly above the one before it. */
  ghost predicate StrictlyIncreasing(hs: seq<real>) {
    forall k :: 0 < k < |hs| ==> hs[k - 1] < hs[k]
  }

  /**
    The side heights as written, for a gutter at or below 2.1 m (the height
    menu allows gutters down to 2 m): the fixed purlin at 2.1 m is still
    placed, at or above the gutter that tops the side wall, and the gutter
    purlin after it lies lower, so the side purlins are not in increasing
    order.
  */
  lemma LowGutterSidePurlinAboveTheWall(g: real, roofHeight: real)
    requires 0.9 < g <= 2.1
    ensures WallHeights(Left, g, roofHeight) == [0.0, 0.9, 2.1, g]
    ensures WallHeights(Left, g, roofHeight)[2] >= g
    ensures !StrictlyIncreasing(WallHeights(Left, g, roofHeight))
  {
    assert Stepped(2.1, WallPurlinStep, g) == [];
    var l := WallHeights(Left, g, roofHeight);
    assert l == [0.0, 0.9, 2.1, g];
    assert !(l[2] < l[3]);
  }

  /** The fixed heights that lie strictly below the gutter g. */
  function FixedBelow(g: real): seq<real> {
    if g > 2.1 then FixedHeights
    else if g > 0.9 then [0.0, 0.9]
    else if g > 0.0 then [0.0]
    else []
  }

  /**
    The corrected side heights: the fixed heights below the gutter, one every
    1.5 m above 2.1 m strictly below the gutter, and the gutter itself.
  */
  function SideHeights(g: real): seq<real> {
    FixedBelow(g) + Stepped(2.1, WallPurlinStep, g) + [g]
  }

  /**
    For any gutter above the floor the corrected side heights lie between the
    floor and the gutter, rise strictly, and end at the gutter; above 2.1 m
    they are exactly the heights the frame places now.
  */
  lemma SideHeightsFitTheWall(g: real, roofHeight: real)
    requires g > 0.0
    ensures forall k :: 0 <= k < |SideHeights(g)| ==> 0.0 <= SideHeights(g)[k] <= g
    ensures StrictlyIncreasing(SideHeights(g))
    ensures SideHeights(g)[|SideHeights(g)| - 1] == g
    ensures g > 2.1 ==> SideHeights(g) == WallHeights(Left, g, roofHeight)
  {
    var fixed := FixedBelow(g);
    var es := Stepped(2.1, WallPurlinStep, g);
    FixedBelowFits(g);
    SideStepsFit(g);
    IncreasingJoin(fixed, es);
    IncreasingJoin(fixed + es, [g]);
    var l := SideHeights(g);
    forall k | 0 <= k < |l| ensures 0.0 <= l[k] <= g {
      if k < |fixed| {
        assert l[k] == fixed[k];
      } else if k < |l| - 1 {
        assert l[k] == es[k - |fixed|];
      }
    }
  }

  /** The fixed heights kept below a gutter g rise, start at the floor and stay under both g and 2.1 m. */
  lemma FixedBelowFits(g: real)
    requires g > 0.0
    ensures forall k :: 0 <= k < |FixedBelow(g)| ==> 0.0 <= FixedBelow(g)[k] < g && FixedBelow(g)[k] <= 2.1
    ensures StrictlyIncreasing(FixedBelow(g))
    ensures FixedBelow(g) != [] && FixedBelow(g)[0] == 0.0
  {
  }

  /** The stepped side heights rise and lie strictly between 2.1 m and the gutter. */
  lemma SideStepsFit(g: real)
    ensures var es := Stepped(2.1, WallPurlinStep, g);
      StrictlyIncreasing(es) && forall k :: 0 <= k < |es| ==> 2.1 < es[k] < g
  {
    var es := Stepped(2.1, WallPurlinStep, g);
    SteppedClosedForm(2.1, WallPurlinStep, g);
    SteppedIsTheGrid(2.1, WallPurlinStep, g);
    forall k | 0 <= k < |es| ensures 2.1 < es[k] < g {
      assert es[k] == 2.1 + (k + 1) as real * WallPurlinStep;
    }
  }

  /** Two rising runs, the first ending below where the second begins, rise together. */
  lemma IncreasingJoin(a: seq<real>, b: seq<real>)
    requires StrictlyIncreasing(a) && StrictlyIncreasing(b)
    requires a != [] && b != [] ==> a[|a| - 1] < b[0]
    ensures StrictlyIncreasing(a + b)
  {
    var c := a + b;
    forall k | 0 < k < |c| ensures c[k - 1] < c[k] {
      if k < |a| {
        assert c[k - 1] == a[k - 1] && c[k] == a[k];
      } else if k == |a| {
        assert c[k] == b[0];
        assert c[k - 1] == a[|a| - 1];
      } else {
        assert c[k - 1] == b[k - 1 - |a|] && c[k] == b[k - |a|];
      }
    }
  }

  /** One turn of a height loop: the next height is pushed and fewer steps remain. */
  lemma SteppedUnfold(cur: real, step: real, limit: real)
    requires step > 0.0 && cur + step < limit
    ensures Stepped(cur, step, limit) == [cur + step] + Stepped(cur + step, step, limit)
    ensures 0 <= ((limit - (cur + step)) / step).Floor < ((limit - cur) / step).Floor
  {
    StepDown(limit - cur, step);
    RatioBelowOne(step, limit - cur);
  }

  /** The older variant's height loop: cur := 0.9; while g - cur > 2.5 { cur += 2.5; push cur }. */
  method BackupHeightLoop(g: real) returns (heights: seq<real>)
    ensures heights == Stepped(0.9, BackupPurlinStep, g)
  {
    heights := [];
    var cur := 0.9;
    while g - cur > BackupPurlinStep
      invariant heights + Stepped(cur, BackupPurlinStep, g) == Stepped(0.9, BackupPurlinStep, g)
      decreases ((g - cur) / BackupPurlinStep).Floor
    {
      SteppedUnfold(cur, BackupPurlinStep, g);
      assert heights + [cur + BackupPurlinStep] + Stepped(cur + BackupPurlinStep, BackupPurlinStep, g)
        == heights + Stepped(cur, BackupPurlinStep, g);
      cur := cur + BackupPurlinStep;
      heights := heights + [cur];
    }
    assert Stepped(cur, BackupPurlinStep, g) == [];
    assert heights + [] == heights;
  }

  /** The older variant runs the same loop for the front/back list and for the left/right list. */
  method BackupExtraHeights(g: real) returns (frontBack: seq<real>, leftRight: seq<real>)
    ensures frontBack == leftRight == Stepped(0.9, BackupPurlinStep, g)
  {
    frontBack := BackupHeightLoop(g);
    leftRight := BackupHeightLoop(g);
  }

  /** Every extra height of the older variant is below the gutter, and the last gap to the gutter is at most 2.5 m. */
  lemma BackupHeightsBelowGutter(g: real)
    ensures forall k :: 0 <= k < |Stepped(0.9, BackupPurlinStep, g)| ==> Stepped(0.9, BackupPurlinStep, g)[k] < g
    ensures var r := Stepped(0.9, BackupPurlinStep, g);
      g - (if r == [] then 0.9 else r[|r| - 1]) <= BackupPurlinStep
  {
    SteppedClosedForm(0.9, BackupPurlinStep, g);
  }

  // ---------------------------------------------------------------------
  // Runs at one height
  // ---------------------------------------------------------------------

  /**
    Which openings a run subtracts. The current frame always takes the doors
    that cross the run's height; the older variant's ground runs take every
    door on the wall and its gutter runs the doors that reach the gutter.
  */
  datatype RunFilter = CrossingHeight(h: real) | AllOnWall | ReachingGutter(g: real) {
    predicate Keeps(o: Opening) {
      match this
      case CrossingHeight(h) => o.y1 <= h && o.y2 >= h
      case AllOnWall => true
      case ReachingGutter(g) => o.y2 >= g
    }
  }

  /** An opening's span along its wall. */
  function SpanOf(o: Opening): Interval {
    Interval(o.AlongStart(), o.AlongEnd())
  }

  /** The spans of the openings on the wall that the filter keeps, in list order. */
  function WallSpans(openings: seq<Opening>, wall: Wall, f: RunFilter): (r: seq<Interval>)
    ensures |r| <= |openings|
  {
    if openings == [] then []
    else
      (if openings[0].wall == wall && f.Keeps(openings[0]) then [SpanOf(openings[0])] else [])
      + WallSpans(openings[1..], wall, f)
  }

  /** The j-th opening is on the wall, kept by the filter, and has span s. */
  predicate SpanOfKept(openings: seq<Opening>, wall: Wall, f: RunFilter, j: int, s: Interval) {
    0 <= j < |openings| && openings[j].wall == wall && f.Keeps(openings[j]) && s == SpanOf(openings[j])
  }

  /** s is the span of some opening on the wall that the filter keeps. */
  ghost predicate FromKept(openings: seq<Opening>, wall: Wall, f: RunFilter, s: Interval) {
    exists j :: SpanOfKept(openings, wall, f, j, s)
  }

  /** Every span comes from a kept opening on the wall. */
  lemma WallSpansSound(openings: seq<Opening>, wall: Wall, f: RunFilter)
    ensures forall k :: 0 <= k < |WallSpans(openings, wall, f)| ==> FromKept(openings, wall, f, WallSpans(openings, wall, f)[k])
  {
    forall k | 0 <= k < |WallSpans(openings, wall, f)|
      ensures FromKept(openings, wall, f, WallSpans(openings, wall, f)[k])
    {
      var j := SpanSource(openings, wall, f, k);
    }
  }

  /** The index of the opening the k-th span comes from. */
  lemma {:induction false} SpanSource(openings: seq<Opening>, wall: Wall, f: RunFilter, k: int) returns (j: int)
    requires 0 <= k < |WallSpans(openings, wall, f)|
    ensures SpanOfKept(openings, wall, f, j, WallSpans(openings, wall, f)[k])
    decreases |openings|
  {
    var r := WallSpans(openings, wall, f);
    var tail := openings[1..];
    var rest := WallSpans(tail, wall, f);
    var head := if openings[0].wall == wall && f.Keeps(openings[0]) then [SpanOf(openings[0])] else [];
    assert r == head + rest;
    if k < |head| {
      j := 0;
    } else {
      assert r[k] == rest[k - |head|];
      var i := SpanSource(tail, wall, f, k - |head|);
      assert openings[i + 1] == tail[i];
      j := i + 1;
    }
  }

  /** Every kept opening on the wall contributes its span. */
  lemma {:induction false} WallSpansComplete(openings: seq<Opening>, wall: Wall, f: RunFilter)
    ensures forall j :: 0 <= j < |openings| && openings[j].wall == wall && f.Keeps(openings[j]) ==>
      SpanOf(openings[j]) in WallSpans(openings, wall, f)
    decreases |openings|
  {
    if openings != [] {
      var r := WallSpans(openings, wall, f);
      var tail := openings[1..];
      WallSpansComplete(tail, wall, f);
      var head := if openings[0].wall == wall && f.Keeps(openings[0]) then [SpanOf(openings[0])] else [];
      assert r == head + WallSpans(tail, wall, f);
      forall j | 0 <= j < |openings| && openings[j].wall == wall && f.Keeps(openings[j])
        ensures SpanOf(openings[j]) in r
      {
        if j > 0 {
          assert openings[j] == tail[j - 1];
        }
      }
    }
  }

  /** Openings that do not run backwards give well-formed spans. */
  lemma {:induction false} WallSpansWellFormed(openings: seq<Opening>, wall: Wall, f: RunFilter)
    requires forall k :: 0 <= k < |openings| ==> openings[k].AlongStart() <= openings[k].AlongEnd()
    ensures WellFormed(WallSpans(openings, wall, f))
    decreases |openings|
  {
    if openings != [] {
      WallSpansWellFormed(openings[1..], wall, f);
    }
  }

  /** The purlin run of a wall with the kept openings removed: the cursor walk over them sorted by start. */
  function WallRun(openings: seq<Opening>, wall: Wall, f: RunFilter, width: real, length: real): seq<Interval> {
    var half := WallSpan(wall, width, length) / 2.0;
    Subtracted(-half, half, SortByStart(WallSpans(openings, wall, f)))
  }

  /**
    A wall's run at a height no door crosses is the whole span in one piece;
    otherwise, when the doors crossing that height are proper, pairwise
    disjoint and inside the wall, the run has positive-length pieces in
    increasing order that stay on the wall, never overlap a door, and together
    with the doors cover the whole span.
  */
  lemma {:induction false} WallRunIsTheWallMinusItsDoors(openings: seq<Opening>, wall: Wall, f: RunFilter, width: real, length: real)
    requires width > 0.0 && length > 0.0
    ensures var half := WallSpan(wall, width, length) / 2.0;
      WallSpans(openings, wall, f) == [] ==> WallRun(openings, wall, f, width, length) == [Interval(-half, half)]
    ensures var half := WallSpan(wall, width, length) / 2.0;
      var spans := WallSpans(openings, wall, f);
      var run := WallRun(openings, wall, f, width, length);
      Proper(spans) && Disjoint(spans) && Inside(spans, -half, half) ==> RunAround(run, spans, -half, half)
  {
    var half := WallSpan(wall, width, length) / 2.0;
    WallRunUnfolds(openings, wall, f, width, length);
    RunOverSpans(-half, half, WallSpans(openings, wall, f), WallRun(openings, wall, f, width, length));
  }

  /** The run goes from minus half the wall's span to plus half, which are apart on a wall of positive size. */
  lemma {:induction false} WallRunUnfolds(openings: seq<Opening>, wall: Wall, f: RunFilter, width: real, length: real)
    requires width > 0.0 && length > 0.0
    ensures var half := WallSpan(wall, width, length) / 2.0;
      -half < half && WallRun(openings, wall, f, width, length) == Subtracted(-half, half, SortByStart(WallSpans(openings, wall, f)))
  {
  }

  /** The cursor walk from lo to hi over spans sorted by start, for any spans. */
  lemma RunOverSpans(lo: real, hi: real, spans: seq<Interval>, run: seq<Interval>)
    requires lo < hi && run == Subtracted(lo, hi, SortByStart(spans))
    ensures spans == [] ==> run == [Interval(lo, hi)]
    ensures Proper(spans) && Disjoint(spans) && Inside(spans, lo, hi) ==> RunAround(run, spans, lo, hi)
  {
    if spans == [] {
      assert SortByStart(spans) == [];
    }
    if Proper(spans) && Disjoint(spans) && Inside(spans, lo, hi) {
      SortedSubtractionReconstructs(lo, hi, spans);
    }
  }

  /**
    The older variant's ground and gutter runs subtract the same doors as the
    current frame's runs at height 0 and at the gutter, because every door
    opening starts at the floor.
  */
  lemma BackupFiltersMatch(openings: seq<Opening>, wall: Wall, g: real)
    requires g >= 0.0
    requires forall k :: 0 <= k < |openings| ==> openings[k].y1 == 0.0 && openings[k].y2 >= 0.0
    ensures WallSpans(openings, wall, AllOnWall) == WallSpans(openings, wall, CrossingHeight(0.0))
    ensures WallSpans(openings, wall, ReachingGutter(g)) == WallSpans(openings, wall, CrossingHeight(g))
  {
    FiltersAgree(openings, wall, AllOnWall, CrossingHeight(0.0));
    FiltersAgree(openings, wall, ReachingGutter(g), CrossingHeight(g));
  }

  lemma {:induction false} FiltersAgree(openings: seq<Opening>, wall: Wall, f1: RunFilter, f2: RunFilter)
    requires forall k :: 0 <= k < |openings| ==> (f1.Keeps(openings[k]) <==> f2.Keeps(openings[k]))
    ensures WallSpans(openings, wall, f1) == WallSpans(openings, wall, f2)
    decreases |openings|
  {
    if openings != [] {
      FiltersAgree(openings[1..], wall, f1, f2);
    }
  }

  // ---------------------------------------------------------------------
  // Above the gutter: the gable taper
  // ---------------------------------------------------------------------

  /** The gable's width at height h above the gutter g: width * (1 - (h - g) / roofHeight). */
  function ReducedWidth(width: real, h: real, g: real, roofHeight: real): (rw: real)
    requires roofHeight > 0.0
    ensures width > 0.0 && g < h < g + roofHeight ==> 0.0 < rw < width
  {
    var rw := width * (1.0 - (h - g) / roofHeight);
    if width > 0.0 && g < h < g + roofHeight then
      RatioBelowOne(h - g, roofHeight);
      rw
    else rw
  }

  /** The band a front or back purlin above the gutter is narrowed to: the gable width, centred on the wall. */
  function GableBand(width: real, h: real, g: real, roofHeight: real): (band: Interval)
    requires roofHeight > 0.0
    ensures band.start == -band.end && band.end - band.start == ReducedWidth(width, h, g, roofHeight)
    ensures width > 0.0 && g < h < g + roofHeight ==> -width / 2.0 < band.start < band.end < width / 2.0
  {
    var rw := ReducedWidth(width, h, g, roofHeight);
    Interval(-rw / 2.0, rw / 2.0)
  }

  /** The narrowed run above the gutter: the gable band, minus the doors starting inside it. */
  function TaperedRun(openings: seq<Opening>, wall: Wall, h: real, width: real, g: real, roofHeight: real): seq<Interval>
    requires roofHeight > 0.0
  {
    var band := GableBand(width, h, g, roofHeight);
    Narrowed(band.start, band.end, SortByStart(WallSpans(openings, wall, CrossingHeight(h))))
  }

  /**
    The run of one wall at one height as it is evidently meant to be
    rendered: front and back purlins above the gutter are narrowed once to the
    gable; every other run is the wall minus its doors.
  */
  function PurlinRun(openings: seq<Opening>, wall: Wall, h: real, width: real, length: real, g: real, roofHeight: real): seq<Interval>
    requires roofHeight > 0.0
  {
    if wall.AlongWidth() && h > g then TaperedRun(openings, wall, h, width, g, roofHeight)
    else WallRun(openings, wall, CrossingHeight(h), width, length)
  }

  /**
    Above the gutter and below the peak, a front or back purlin stays inside
    the gable's width at its height, with positive-length pieces in order;
    side purlins are never narrowed.
  */
  lemma PurlinRunFitsTheGable(openings: seq<Opening>, wall: Wall, h: real, width: real, length: real, g: real, roofHeight: real)
    requires width > 0.0 && roofHeight > 0.0
    requires wall.AlongWidth() && g < h < g + roofHeight
    requires forall k :: 0 <= k < |openings| ==> openings[k].AlongStart() <= openings[k].AlongEnd()
    ensures var band := GableBand(width, h, g, roofHeight);
      var run := PurlinRun(openings, wall, h, width, length, g, roofHeight);
      -width / 2.0 < band.start < band.end < width / 2.0
      && Inside(run, band.start, band.end) && Proper(run) && Ordered(run)
  {
    var band := GableBand(width, h, g, roofHeight);
    var spans := WallSpans(openings, wall, CrossingHeight(h));
    WallSpansWellFormed(openings, wall, CrossingHeight(h));
    SortKeepsWellFormed(spans);
    NarrowedInsideBand(band.start, band.end, SortByStart(spans));
  }

  /**
    The renderHorizontalBeam computation of one wall at one height, as written:
    the base run is the wall minus the doors crossing the height; for a front
    or back purlin above the gutter the narrowed run is rebuilt inside the
    loop over the base run's pieces and so is emitted once per base piece.
  */
  method RenderedRunAsWritten(openings: seq<Opening>, wall: Wall, h: real, width: real, length: real, g: real, roofHeight: real)
    returns (rendered: seq<Interval>)
    requires roofHeight > 0.0
    ensures rendered == RunAsWritten(openings, wall, h, width, length, g, roofHeight)
  {
    var half := WallSpan(wall, width, length) / 2.0;
    var spans := SortByStart(WallSpans(openings, wall, CrossingHeight(h)));
    var segments := SubtractSpans(-half, half, spans);
    assert segments == WallRun(openings, wall, CrossingHeight(h), width, length);
    if wall.AlongWidth() && h > g {
      var band := GableBand(width, h, g, roofHeight);
      rendered := RepeatInBand(band.start, band.end, spans, |segments|);
    } else {
      rendered := segments;
    }
  }

  /** The loop over the base pieces: each pass rebuilds the narrowed run and appends it. */
  method RepeatInBand(lo: real, hi: real, spans: seq<Interval>, pieces: nat) returns (rendered: seq<Interval>)
    ensures rendered == Repeat(Narrowed(lo, hi, spans), pieces)
  {
    rendered := [];
    for i := 0 to pieces
      invariant rendered == Repeat(Narrowed(lo, hi, spans), i)
    {
      var adjusted := SubtractSpansInBand(lo, hi, spans);
      rendered := rendered + adjusted;
    }
  }

  /** n copies of s, one after the other. */
  function Repeat(s: seq<Interval>, n: nat): seq<Interval> {
    if n == 0 then [] else Repeat(s, n - 1) + s
  }

  /** What renderHorizontalBeam emits: the narrowed run once per piece of the base run. */
  function RunAsWritten(openings: seq<Opening>, wall: Wall, h: real, width: real, length: real, g: real, roofHeight: real): seq<Interval>
    requires roofHeight > 0.0
  {
    var base := WallRun(openings, wall, CrossingHeight(h), width, length);
    if wall.AlongWidth() && h > g then Repeat(TaperedRun(openings, wall, h, width, g, roofHeight), |base|)
    else base
  }

  /**
    Below the gutter, and on the side walls, the run as written is the
    intended run; above the gutter it is the intended narrowed run repeated
    once per base piece.
  */
  lemma RunAsWrittenRepeatsTheTaper(openings: seq<Opening>, wall: Wall, h: real, width: real, length: real, g: real, roofHeight: real)
    requires roofHeight > 0.0
    ensures !(wall.AlongWidth() && h > g) ==>
      RunAsWritten(openings, wall, h, width, length, g, roofHeight) == PurlinRun(openings, wall, h, width, length, g, roofHeight)
    ensures wall.AlongWidth() && h > g ==>
      RunAsWritten(openings, wall, h, width, length, g, roofHeight)
        == Repeat(PurlinRun(openings, wall, h, width, length, g, roofHeight), |WallRun(openings, wall, CrossingHeight(h), width, length)|)
  {
  }

  /**
    The duplication exhibited: on the default 8 m front wall with a 3 m gutter
    and a 2 m roof, a 3 m wide door reaching 4 m splits the base run at 3.6 m
    into two pieces, so both narrowed pieces are emitted twice.
  */
  lemma DuplicatedAboveGutter()
    ensures var door := Opening("item-1", Front, -1.5, 1.5, 0.0, 4.0, 6.0, 6.0, false);
      var intended := PurlinRun([door], Front, 3.6, 8.0, 12.0, 3.0, 2.0);
      intended == [Interval(-2.8, -1.5), Interval(1.5, 2.8)]
      && RunAsWritten([door], Front, 3.6, 8.0, 12.0, 3.0, 2.0) == intended + intended
  {
    var door := Opening("item-1", Front, -1.5, 1.5, 0.0, 4.0, 6.0, 6.0, false);
    var spans := WallSpans([door], Front, CrossingHeight(3.6));
    assert spans == [Interval(-1.5, 1.5)];
    assert SortByStart(spans) == spans;
    assert StartingIn(spans, -2.8, 2.8) == spans;
    assert ReducedWidth(8.0, 3.6, 3.0, 2.0) == 5.6;
    var base := WallRun([door], Front, CrossingHeight(3.6), 8.0, 12.0);
    assert WallSpan(Front, 8.0, 12.0) / 2.0 == 4.0;
    assert spans[1..] == [];
    assert CursorRun(-4.0, 4.0, spans) == [Interval(-4.0, -1.5)] + CursorRun(1.5, 4.0, []);
    assert base == [Interval(-4.0, -1.5), Interval(1.5, 4.0)];
    assert Repeat(PurlinRun([door], Front, 3.6, 8.0, 12.0, 3.0, 2.0), 1) == PurlinRun([door], Front, 3.6, 8.0, 12.0, 3.0, 2.0);
  }

  /** The corrected purlin computation: the narrowed run is built once. */
  method RenderedRun(openings: seq<Opening>, wall: Wall, h: real, width: real, length: real, g: real, roofHeight: real)
    returns (run: seq<Interval>)
    requires roofHeight > 0.0
    ensures run == PurlinRun(openings, wall, h, width, length, g, roofHeight)
  {
    var spans := SortByStart(WallSpans(openings, wall, CrossingHeight(h)));
    if wall.AlongWidth() && h > g {
      var band := GableBand(width, h, g, roofHeight);
      run := SubtractSpansInBand(band.start, band.end, spans);
      assert run == TaperedRun(openings, wall, h, width, g, roofHeight);
    } else {
      var half := WallSpan(wall, width, length) / 2.0;
      run := SubtractSpans(-half, half, spans);
      assert run == WallRun(openings, wall, CrossingHeight(h), width, length);
    }
  }

  /**
    The narrowed run only subtracts doors whose start lies in the gable band:
    on the default 8 m front wall under a 3 m gutter and a 2 m roof, a door
    from -4 m to -2 m reaching 4 m high starts left of the band [-2.8, 2.8]
    at 3.6 m, so the purlin there runs through the door; the corrected run
    starts where the door ends.
  */
  lemma DoorReachingIntoTheGableIsIgnored()
    ensures var door := Opening("item-1", Front, -4.0, -2.0, 0.0, 4.0, 6.0, 6.0, false);
      var run := PurlinRun([door], Front, 3.6, 8.0, 12.0, 3.0, 2.0);
      run == [Interval(-2.8, 2.8)] && !Apart(run, [SpanOf(door)])
      && ClippedTaperedRun([door], Front, 3.6, 8.0, 3.0, 2.0) == [Interval(-2.0, 2.8)]
  {
    var door := Opening("item-1", Front, -4.0, -2.0, 0.0, 4.0, 6.0, 6.0, false);
    var spans := WallSpans([door], Front, CrossingHeight(3.6));
    assert spans == [Interval(-4.0, -2.0)];
    assert SortByStart(spans) == spans;
    assert ReducedWidth(8.0, 3.6, 3.0, 2.0) == 5.6;
    assert GableBand(8.0, 3.6, 3.0, 2.0) == Interval(-2.8, 2.8);
    assert StartingIn(spans, -2.8, 2.8) == [];
    assert CursorRun(-2.8, 2.8, []) == [Interval(-2.8, 2.8)];
    var run := PurlinRun([door], Front, 3.6, 8.0, 12.0, 3.0, 2.0);
    assert run == [Interval(-2.8, 2.8)];
    assert !(run[0].end <= SpanOf(door).start || SpanOf(door).end <= run[0].start);
    assert spans[1..] == [];
    assert ClippedTo(spans, -2.8, 2.8) == [Interval(-2.8, -2.0)];
    assert CursorRun(-2.8, 2.8, [Interval(-2.8, -2.0)]) == [] + CursorRun(-2.0, 2.8, []);
  }

  /**
    The corrected narrowed run: the gable band minus every crossing door
    that reaches into it, each cut back to the band.
  */
  function ClippedTaperedRun(openings: seq<Opening>, wall: Wall, h: real, width: real, g: real, roofHeight: real): seq<Interval>
    requires roofHeight > 0.0
  {
    var band := GableBand(width, h, g, roofHeight);
    Subtracted(band.start, band.end, ClippedTo(SortByStart(WallSpans(openings, wall, CrossingHeight(h))), band.start, band.end))
  }

  /**
    Above the gutter and below the peak, the corrected narrowed run of a wall
    whose crossing doors are proper and pairwise disjoint has positive-length
    pieces in order inside the gable band, overlaps no door (also one that
    starts outside the band), and together with the doors covers the band.
  */
  lemma ClippedTaperAvoidsTheDoors(openings: seq<Opening>, wall: Wall, h: real, width: real, g: real, roofHeight: real)
    requires width > 0.0 && roofHeight > 0.0 && g < h < g + roofHeight
    requires Proper(WallSpans(openings, wall, CrossingHeight(h))) && Disjoint(WallSpans(openings, wall, CrossingHeight(h)))
    ensures var band := GableBand(width, h, g, roofHeight);
      RunAround(ClippedTaperedRun(openings, wall, h, width, g, roofHeight), WallSpans(openings, wall, CrossingHeight(h)), band.start, band.end)
  {
    var band := GableBand(width, h, g, roofHeight);
    var spans := WallSpans(openings, wall, CrossingHeight(h));
    ClippedBandRun(band.start, band.end, spans, ClippedTaperedRun(openings, wall, h, width, g, roofHeight));
  }

  /** The clipped walk over proper, disjoint spans taken in start order. */
  lemma ClippedBandRun(lo: real, hi: real, spans: seq<Interval>, run: seq<Interval>)
    requires lo < hi && Proper(spans) && Disjoint(spans)
    requires run == Subtracted(lo, hi, ClippedTo(SortByStart(spans), lo, hi))
    ensures RunAround(run, spans, lo, hi)
  {
    var sorted := SortByStart(spans);
    SortDisjoint(spans);
    ClippedRunAvoidsTheOpenings(lo, hi, sorted);
  }

  /** The 0.9 m purlin of the default front wall around a 3 m door at 2.5 m: two pieces, [-4, -1.5] and [1.5, 4]. */
  lemma DoorOnDefaultFrontWall()
    ensures var door := Opening("item-1", Front, -1.5, 1.5, 0.0, 3.0, 6.0, 6.0, false);
      PurlinRun([door], Front, 0.9, 8.0, 12.0, 3.0, 2.0) == [Interval(-4.0, -1.5), Interval(1.5, 4.0)]
      && PurlinRun([door], Front, 2.1, 8.0, 12.0, 3.0, 2.0) == [Interval(-4.0, -1.5), Interval(1.5, 4.0)]
  {
    var door := Opening("item-1", Front, -1.5, 1.5, 0.0, 3.0, 6.0, 6.0, false);
    assert WallSpans([door], Front, CrossingHeight(0.9)) == [Interval(-1.5, 1.5)];
    assert WallSpans([door], Front, CrossingHeight(2.1)) == [Interval(-1.5, 1.5)];
  }
}
