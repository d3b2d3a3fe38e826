/**
  Interval arithmetic behind every purlin run: a wall's span minus the spans
  of the openings that cross the purlin's height. The page sorts the
  crossing openings by their start and walks a cursor along the wall,
  emitting the gap before each opening and jumping the cursor to the
  opening's end; whatever is left after the last opening is the final piece.
*/
module Intervals {
  import opened Common

  /** A closed stretch [start, end] along one wall axis. */
  datatype Interval = Interval(start: real, end: real)

  /** Every interval runs forwards (an opening of non-negative width). */
  ghost predicate WellFormed(s: seq<Interval>) {
    forall i :: 0 <= i < |s| ==> s[i].start <= s[i].end
  }

  /** Every interval has positive length. */
  ghost predicate Proper(s: seq<Interval>) {
    forall i :: 0 <= i < |s| ==> s[i].start < s[i].end
  }

  ghost predicate SortedByStart(s: seq<Interval>) {
    forall i, j :: 0 <= i < j < |s| ==> s[i].start <= s[j].start
  }

  /** In increasing order and pairwise non-overlapping. */
  ghost predicate Ordered(s: seq<Interval>) {
    forall i, j :: 0 <= i < j < |s| ==> s[i].end <= s[j].start
  }

  /** Every interval lies inside [lo, hi]. */
  ghost predicate Inside(s: seq<Interval>, lo: real, hi: real) {
    forall i :: 0 <= i < |s| ==> lo <= s[i].start && s[i].end <= hi
  }

  /** p lies in the half-open interval [start, end) of some member of s. */
  ghost predicate Covered(s: seq<Interval>, p: real) {
    exists i :: 0 <= i < |s| && s[i].start <= p < s[i].end
  }

  /** Every point of [lo, hi) lies in a piece of run or in a member of spans. */
  ghost predicate Fills(run: seq<Interval>, spans: seq<Interval>, lo: real, hi: real) {
    forall p :: lo <= p < hi ==> Covered(run, p) || Covered(spans, p)
  }

  /**
    run is what is left of [lo, hi) around the spans: positive-length pieces in
    increasing order inside [lo, hi), none overlapping a span, and together
    with the spans covering all of [lo, hi).
  */
  ghost predicate RunAround(run: seq<Interval>, spans: seq<Interval>, lo: real, hi: real) {
    Proper(run) && Ordered(run) && Inside(run, lo, hi) && Apart(run, SortByStart(spans)) && Fills(run, spans, lo, hi)
  }

  /** No member of a overlaps the interior of a member of b. */
  ghost predicate Apart(a: seq<Interval>, b: seq<Interval>) {
    forall i, j :: 0 <= i < |a| && 0 <= j < |b| ==> a[i].end <= b[j].start || b[j].end <= a[i].start
  }

  // ---------------------------------------------------------------------
  // Sorting by start (Array.prototype.sort with (a, b) => a.start - b.start)
  // ---------------------------------------------------------------------

  /** Inserts x before the first element that does not start earlier than x. */
  function InsertByStart(x: Interval, s: seq<Interval>): (r: seq<Interval>)
    requires SortedByStart(s)
    ensures SortedByStart(r)
    ensures |r| == |s| + 1 && (r[0] == x || (s != [] && r[0] == s[0]))
  {
    if s == [] || x.start <= s[0].start then [x] + s
    else
      var rest := InsertByStart(x, s[1..]);
      assert s == [s[0]] + s[1..];
      assert forall k :: 0 <= k < |rest| ==> s[0].start <= rest[0].start <= rest[k].start;
      [s[0]] + rest
  }

  /**
    Stable insertion sort by start. Each element is inserted ahead of the
    later elements with an equal start, so equal starts keep their original
    order, as the page's stable array sort does.
  */
  function SortByStart(s: seq<Interval>): (r: seq<Interval>)
    ensures SortedByStart(r)
    ensures |r| == |s|
  {
    if s == [] then []
    else InsertByStart(s[0], SortByStart(s[1..]))
  }

  /** Insertion adds exactly the one element: the result is a permutation of x and s. */
  lemma {:induction false} InsertByStartPermutes(x: Interval, s: seq<Interval>)
    requires SortedByStart(s)
    ensures multiset(InsertByStart(x, s)) == multiset(s) + multiset{x}
    decreases |s|
  {
    if s == [] || x.start <= s[0].start {
    } else {
      assert s == [s[0]] + s[1..];
      InsertByStartPermutes(x, s[1..]);
    }
  }

  /** Sorting neither adds nor drops anything: the result is a permutation of the input. */
  lemma {:induction false} SortByStartPermutes(s: seq<Interval>)
    ensures multiset(SortByStart(s)) == multiset(s)
    decreases |s|
  {
    if s != [] {
      assert s == [s[0]] + s[1..];
      SortByStartPermutes(s[1..]);
      InsertByStartPermutes(s[0], SortByStart(s[1..]));
    }
  }

  lemma SortKeepsWellFormed(s: seq<Interval>)
    requires WellFormed(s)
    ensures WellFormed(SortByStart(s)) && |SortByStart(s)| == |s|
  {
    var r := SortByStart(s);
    SortByStartPermutes(s);
    forall i | 0 <= i < |r| ensures r[i].start <= r[i].end {
      assert r[i] in multiset(r);
      assert r[i] in multiset(s);
      var k :| 0 <= k < |s| && s[k] == r[i];
    }
  }

  lemma SortKeepsInside(s: seq<Interval>, lo: real, hi: real)
    requires Inside(s, lo, hi)
    ensures Inside(SortByStart(s), lo, hi)
  {
    var r := SortByStart(s);
    SortByStartPermutes(s);
    forall i | 0 <= i < |r| ensures lo <= r[i].start && r[i].end <= hi {
      assert r[i] in multiset(r);
      assert r[i] in multiset(s);
      var k :| 0 <= k < |s| && s[k] == r[i];
    }
  }

  /** No two members (at different positions) overlap in their interiors. */
  ghost predicate Disjoint(s: seq<Interval>) {
    forall i, j :: 0 <= i < |s| && 0 <= j < |s| && i != j ==> s[i].end <= s[j].start || s[j].end <= s[i].start
  }

  lemma TwoPositionsCountTwice(s: seq<Interval>, i: int, j: int)
    requires 0 <= i < j < |s| && s[i] == s[j]
    ensures multiset(s)[s[i]] >= 2
  {
    assert s == s[..j] + [s[j]] + s[j + 1..];
    assert s[i] in s[..j];
    assert multiset(s) == multiset(s[..j]) + multiset{s[j]} + multiset(s[j + 1..]);
  }

  lemma CountedTwiceAtTwoPositions(s: seq<Interval>, x: Interval)
    requires multiset(s)[x] >= 2
    ensures exists i, j :: 0 <= i < j < |s| && s[i] == x && s[j] == x
  {
    assert x in multiset(s);
    var a :| 0 <= a < |s| && s[a] == x;
    assert s == s[..a] + [s[a]] + s[a + 1..];
    assert multiset(s) == multiset(s[..a]) + multiset{s[a]} + multiset(s[a + 1..]);
    if x in s[..a] {
      var b :| 0 <= b < a && s[..a][b] == x;
      assert s[b] == x;
    } else {
      assert x in multiset(s[a + 1..]);
      var b :| 0 <= b < |s[a + 1..]| && s[a + 1..][b] == x;
      assert s[a + 1 + b] == x;
    }
  }

  lemma SortedMembers(s: seq<Interval>)
    ensures forall i :: 0 <= i < |SortByStart(s)| ==> SortByStart(s)[i] in s
  {
    var r := SortByStart(s);
    SortByStartPermutes(s);
    forall i | 0 <= i < |r| ensures r[i] in s {
      assert r[i] in multiset(r);
    }
  }

  /** Two positions of a permutation of proper, pairwise disjoint intervals are disjoint. */
  lemma PermutedPairDisjoint(s: seq<Interval>, r: seq<Interval>, i: int, j: int)
    requires Proper(s) && Disjoint(s) && multiset(r) == multiset(s)
    requires 0 <= i < |r| && 0 <= j < |r| && i != j
    ensures r[i].end <= r[j].start || r[j].end <= r[i].start
  {
    assert r[i] in multiset(r) && r[j] in multiset(r);
    var a :| 0 <= a < |s| && s[a] == r[i];
    if r[i] == r[j] {
      if i < j { TwoPositionsCountTwice(r, i, j); } else { TwoPositionsCountTwice(r, j, i); }
      CountedTwiceAtTwoPositions(s, r[i]);
    } else {
      var b :| 0 <= b < |s| && s[b] == r[j];
      assert a != b;
    }
  }

  lemma SortKeepsDisjoint(s: seq<Interval>)
    requires Proper(s) && Disjoint(s)
    ensures Proper(SortByStart(s)) && Disjoint(SortByStart(s))
  {
    var r := SortByStart(s);
    SortedMembers(s);
    SortByStartPermutes(s);
    forall i | 0 <= i < |r| ensures r[i].start < r[i].end {
      var k :| 0 <= k < |s| && s[k] == r[i];
    }
    forall i, j | 0 <= i < |r| && 0 <= j < |r| && i != j
      ensures r[i].end <= r[j].start || r[j].end <= r[i].start
    {
      PermutedPairDisjoint(s, r, i, j);
    }
  }

  /** Proper, pairwise disjoint intervals sorted by start are in increasing, non-overlapping order. */
  lemma SortedDisjointIsOrdered(s: seq<Interval>)
    requires Proper(s) && Disjoint(s) && SortedByStart(s)
    ensures Ordered(s)
  {
  }

  /**
    Sorting proper, pairwise disjoint intervals by their start puts them in
    increasing, non-overlapping order and covers the same points.
  */
  lemma SortDisjoint(s: seq<Interval>)
    requires Proper(s) && Disjoint(s)
    ensures Proper(SortByStart(s)) && Ordered(SortByStart(s))
    ensures forall p :: Covered(SortByStart(s), p) ==> Covered(s, p)
  {
    var r := SortByStart(s);
    SortKeepsDisjoint(s);
    SortedDisjointIsOrdered(r);
    SortedMembers(s);
    forall p | Covered(r, p) ensures Covered(s, p) {
      var i :| 0 <= i < |r| && r[i].start <= p < r[i].end;
      var k :| 0 <= k < |s| && s[k] == r[i];
    }
  }

  // ---------------------------------------------------------------------
  // The cursor walk
  // ---------------------------------------------------------------------

  /**
    The pieces emitted by the cursor loop from cursor position cur to the
    wall end hi, given the openings still to visit.
  */
  function CursorRun(cur: real, hi: real, spans: seq<Interval>): (r: seq<Interval>)
    ensures Proper(r)
    decreases |spans|
  {
    if spans == [] then
      if cur < hi then [Interval(cur, hi)] else []
    else
      (if cur < spans[0].start then [Interval(cur, spans[0].start)] else [])
      + CursorRun(spans[0].end, hi, spans[1..])
  }

  /**
    A purlin run from lo to hi with the given (sorted) opening spans removed.
    With no opening the run is the whole span, emitted without the cursor.
  */
  function Subtracted(lo: real, hi: real, spans: seq<Interval>): seq<Interval> {
    if spans == [] then [Interval(lo, hi)] else CursorRun(lo, hi, spans)
  }

  /** The cursor loop of renderHorizontalBeam and of every per-wall run of the older variant. */
  method SubtractSpans(lo: real, hi: real, spans: seq<Interval>) returns (segments: seq<Interval>)
    ensures segments == Subtracted(lo, hi, spans)
  {
    if |spans| == 0 {
      segments := [Interval(lo, hi)];
      return;
    }
    segments := [];
    var cur := lo;
    for i := 0 to |spans|
      invariant segments + CursorRun(cur, hi, spans[i..]) == CursorRun(lo, hi, spans)
    {
      assert spans[i..][1..] == spans[i + 1..];
      if cur < spans[i].start {
        segments := segments + [Interval(cur, spans[i].start)];
      }
      cur := spans[i].end;
    }
    if cur < hi {
      segments := segments + [Interval(cur, hi)];
    }
  }

  /** The starts of the emitted pieces never fall below the cursor or the first opening's start. */
  lemma {:induction false} CursorRunStartsAfter(cur: real, hi: real, spans: seq<Interval>, bound: real)
    requires WellFormed(spans) && SortedByStart(spans)
    requires bound <= cur && (spans != [] ==> bound <= spans[0].start)
    ensures forall k :: 0 <= k < |CursorRun(cur, hi, spans)| ==> bound <= CursorRun(cur, hi, spans)[k].start
    decreases |spans|
  {
    if spans != [] {
      CursorRunStartsAfter(spans[0].end, hi, spans[1..], spans[0].start);
    }
  }

  /** The cursor walk over sorted openings emits pieces in increasing, non-overlapping order. */
  lemma {:induction false} CursorRunOrdered(cur: real, hi: real, spans: seq<Interval>)
    requires WellFormed(spans) && SortedByStart(spans)
    ensures Ordered(CursorRun(cur, hi, spans))
    decreases |spans|
  {
    if spans != [] {
      var rest := CursorRun(spans[0].end, hi, spans[1..]);
      CursorRunOrdered(spans[0].end, hi, spans[1..]);
      CursorRunStartsAfter(spans[0].end, hi, spans[1..], spans[0].start);
    }
  }

  /** Pieces stay inside [lo, hi] when every opening start is, and no opening ends before lo. */
  lemma {:induction false} CursorRunInside(lo: real, cur: real, hi: real, spans: seq<Interval>)
    requires lo <= cur
    requires forall k :: 0 <= k < |spans| ==> lo <= spans[k].start <= spans[k].end && spans[k].start <= hi
    ensures Inside(CursorRun(cur, hi, spans), lo, hi)
    decreases |spans|
  {
    if spans != [] {
      CursorRunInside(lo, spans[0].end, hi, spans[1..]);
    }
  }

  /**
    With sorted, pairwise disjoint openings starting at or after the cursor,
    every point of [cur, hi) lies in an emitted piece or in an opening.
  */
  lemma {:induction false} CursorRunCovers(cur: real, hi: real, spans: seq<Interval>, p: real)
    requires WellFormed(spans) && Ordered(spans)
    requires spans != [] ==> cur <= spans[0].start
    requires cur <= p < hi
    ensures Covered(CursorRun(cur, hi, spans), p) || Covered(spans, p)
    decreases |spans|
  {
    var r := CursorRun(cur, hi, spans);
    if spans == [] {
      assert r[0].start <= p < r[0].end;
    } else if p < spans[0].start {
      assert r[0] == Interval(cur, spans[0].start);
    } else if p < spans[0].end {
      assert spans[0].start <= p < spans[0].end;
    } else {
      var head := if cur < spans[0].start then [Interval(cur, spans[0].start)] else [];
      var rest := CursorRun(spans[0].end, hi, spans[1..]);
      assert r == head + rest;
      CursorRunCovers(spans[0].end, hi, spans[1..], p);
      if Covered(rest, p) {
        var i :| 0 <= i < |rest| && rest[i].start <= p < rest[i].end;
        assert r[|head| + i] == rest[i];
      } else {
        var j :| 0 <= j < |spans[1..]| && spans[1..][j].start <= p < spans[1..][j].end;
        assert spans[j + 1] == spans[1..][j];
      }
    }
  }

  /** With sorted, disjoint openings, no emitted piece overlaps an opening. */
  lemma {:induction false} CursorRunApart(cur: real, hi: real, spans: seq<Interval>)
    requires WellFormed(spans) && Ordered(spans)
    requires spans != [] ==> cur <= spans[0].start
    ensures Apart(CursorRun(cur, hi, spans), spans)
    decreases |spans|
  {
    if spans != [] {
      var r := CursorRun(cur, hi, spans);
      var head := if cur < spans[0].start then [Interval(cur, spans[0].start)] else [];
      var tail := spans[1..];
      var rest := CursorRun(spans[0].end, hi, tail);
      assert r == head + rest;
      assert SortedByStart(spans) by {
        forall i, j | 0 <= i < j < |spans| ensures spans[i].start <= spans[j].start {
          assert spans[i].start <= spans[i].end <= spans[j].start;
        }
      }
      CursorRunApart(spans[0].end, hi, tail);
      CursorRunStartsAfter(spans[0].end, hi, tail, spans[0].end);
      forall i, j | 0 <= i < |r| && 0 <= j < |spans|
        ensures r[i].end <= spans[j].start || spans[j].end <= r[i].start
      {
        if i < |head| {
          assert r[i].end == spans[0].start <= spans[j].start;
        } else {
          assert r[i] == rest[i - |head|];
          if j > 0 {
            assert spans[j] == tail[j - 1];
          }
        }
      }
    }
  }

  /**
    The run of a wall whose crossing openings are sorted, pairwise disjoint
    and inside the wall: its pieces have positive length, come in increasing
    order without overlap, stay on the wall, never overlap an opening, and
    together with the openings cover the whole span.
  */
  lemma SubtractedReconstructs(lo: real, hi: real, spans: seq<Interval>)
    requires lo < hi
    requires WellFormed(spans) && Ordered(spans) && Inside(spans, lo, hi)
    ensures Proper(Subtracted(lo, hi, spans)) && Ordered(Subtracted(lo, hi, spans))
    ensures Inside(Subtracted(lo, hi, spans), lo, hi)
    ensures Apart(Subtracted(lo, hi, spans), spans)
    ensures forall p :: lo <= p < hi ==> Covered(Subtracted(lo, hi, spans), p) || Covered(spans, p)
  {
    var r := Subtracted(lo, hi, spans);
    if spans != [] {
      assert SortedByStart(spans) by {
        forall i, j | 0 <= i < j < |spans| ensures spans[i].start <= spans[j].start {
          assert spans[i].start <= spans[i].end <= spans[j].start;
        }
      }
      CursorRunOrdered(lo, hi, spans);
      CursorRunInside(lo, lo, hi, spans);
      CursorRunApart(lo, hi, spans);
      forall p | lo <= p < hi ensures Covered(r, p) || Covered(spans, p) {
        CursorRunCovers(lo, hi, spans, p);
      }
    } else {
      forall p | lo <= p < hi ensures Covered(r, p) {
        assert r[0].start <= p < r[0].end;
      }
    }
  }

  /**
    The run over openings that are proper, pairwise disjoint and inside the
    wall, taken in start order: the conclusions of SubtractedReconstructs,
    with coverage stated against the openings as given.
  */
  lemma SortedSubtractionReconstructs(lo: real, hi: real, spans: seq<Interval>)
    requires lo < hi
    requires Proper(spans) && Disjoint(spans) && Inside(spans, lo, hi)
    ensures RunAround(Subtracted(lo, hi, SortByStart(spans)), spans, lo, hi)
  {
    var sorted := SortByStart(spans);
    SortDisjoint(spans);
    SortKeepsInside(spans, lo, hi);
    assert WellFormed(sorted);
    SubtractedReconstructs(lo, hi, sorted);
  }

  /**
    Whatever the openings, the run of a wall of positive span over sorted,
    well-formed openings has positive-length pieces in increasing,
    non-overlapping order.
  */
  lemma SubtractedOrdered(lo: real, hi: real, spans: seq<Interval>)
    requires lo < hi
    requires WellFormed(spans) && SortedByStart(spans)
    ensures Proper(Subtracted(lo, hi, spans)) && Ordered(Subtracted(lo, hi, spans))
  {
    if spans != [] {
      CursorRunOrdered(lo, hi, spans);
    }
  }

  // ---------------------------------------------------------------------
  // The narrowed walk above the gutter
  // ---------------------------------------------------------------------

  /** The openings whose start lies inside [lo, hi]; the others are skipped. */
  function StartingIn(spans: seq<Interval>, lo: real, hi: real): (r: seq<Interval>)
    ensures |r| <= |spans|
    ensures forall k :: 0 <= k < |r| ==> lo <= r[k].start <= hi && r[k] in spans
  {
    if spans == [] then []
    else
      (if lo <= spans[0].start <= hi then [spans[0]] else []) + StartingIn(spans[1..], lo, hi)
  }

  /** No opening starting inside the band is skipped. */
  lemma {:induction false} StartingInComplete(spans: seq<Interval>, lo: real, hi: real)
    ensures forall k :: 0 <= k < |spans| && lo <= spans[k].start <= hi ==> spans[k] in StartingIn(spans, lo, hi)
    decreases |spans|
  {
    if spans != [] {
      StartingInComplete(spans[1..], lo, hi);
      forall k | 0 < k < |spans| ensures spans[k] == spans[1..][k - 1] {
      }
    }
  }

  lemma {:induction false} StartingInSorted(spans: seq<Interval>, lo: real, hi: real)
    requires SortedByStart(spans)
    ensures SortedByStart(StartingIn(spans, lo, hi))
    decreases |spans|
  {
    if spans != [] {
      StartingInSorted(spans[1..], lo, hi);
      var rest := StartingIn(spans[1..], lo, hi);
      forall k | 0 <= k < |rest| ensures spans[0].start <= rest[k].start {
        var j :| 0 <= j < |spans[1..]| && spans[1..][j] == rest[k];
        assert spans[j + 1] == rest[k];
      }
    }
  }

  /**
    The narrowed run between the band ends lo and hi: the whole band when the
    wall has no crossing opening, otherwise the cursor walk over the
    openings that start inside the band.
  */
  function Narrowed(lo: real, hi: real, spans: seq<Interval>): seq<Interval> {
    if spans == [] then [Interval(lo, hi)] else CursorRun(lo, hi, StartingIn(spans, lo, hi))
  }

  /** One step of the narrowed walk: an opening outside the band leaves the cursor alone. */
  lemma BandStep(cur: real, lo: real, hi: real, t: seq<Interval>)
    requires t != []
    ensures CursorRun(cur, hi, StartingIn(t, lo, hi))
      == if lo <= t[0].start <= hi then
           (if cur < t[0].start then [Interval(cur, t[0].start)] else []) + CursorRun(t[0].end, hi, StartingIn(t[1..], lo, hi))
         else CursorRun(cur, hi, StartingIn(t[1..], lo, hi))
  {
    var band := StartingIn(t[1..], lo, hi);
    if lo <= t[0].start <= hi {
      assert StartingIn(t, lo, hi) == [t[0]] + band;
      assert ([t[0]] + band)[1..] == band;
    } else {
      assert StartingIn(t, lo, hi) == band;
    }
  }

  /** The cursor loop that builds the adjusted segments above the gutter. */
  method SubtractSpansInBand(lo: real, hi: real, spans: seq<Interval>) returns (segments: seq<Interval>)
    ensures segments == Narrowed(lo, hi, spans)
  {
    if |spans| == 0 {
      segments := [Interval(lo, hi)];
      return;
    }
    segments := [];
    var cur := lo;
    for i := 0 to |spans|
      invariant segments + CursorRun(cur, hi, StartingIn(spans[i..], lo, hi)) == CursorRun(lo, hi, StartingIn(spans, lo, hi))
    {
      assert spans[i..][1..] == spans[i + 1..];
      BandStep(cur, lo, hi, spans[i..]);
      ghost var rest := StartingIn(spans[i + 1..], lo, hi);
      if lo <= spans[i].start && spans[i].start <= hi {
        if cur < spans[i].start {
          var piece := [Interval(cur, spans[i].start)];
          assert segments + (piece + CursorRun(spans[i].end, hi, rest)) == (segments + piece) + CursorRun(spans[i].end, hi, rest);
          segments := segments + piece;
        } else {
          assert [] + CursorRun(spans[i].end, hi, rest) == CursorRun(spans[i].end, hi, rest);
        }
        cur := spans[i].end;
      }
    }
    assert spans[|spans|..] == [];
    if cur < hi {
      segments := segments + [Interval(cur, hi)];
    }
  }

  /**
    The narrowed run never leaves its band, whatever the openings (as long as
    none runs backwards), and over sorted openings its pieces are in
    increasing, non-overlapping order.
  */
  lemma NarrowedInsideBand(lo: real, hi: real, spans: seq<Interval>)
    requires lo < hi
    requires WellFormed(spans) && SortedByStart(spans)
    ensures Inside(Narrowed(lo, hi, spans), lo, hi)
    ensures Proper(Narrowed(lo, hi, spans)) && Ordered(Narrowed(lo, hi, spans))
  {
    if spans != [] {
      var band := StartingIn(spans, lo, hi);
      forall k | 0 <= k < |band| ensures lo <= band[k].start <= band[k].end && band[k].start <= hi {
        var j :| 0 <= j < |spans| && spans[j] == band[k];
      }
      CursorRunInside(lo, lo, hi, band);
      StartingInSorted(spans, lo, hi);
      assert WellFormed(band) by {
        forall k | 0 <= k < |band| ensures band[k].start <= band[k].end {
          var j :| 0 <= j < |spans| && spans[j] == band[k];
        }
      }
      CursorRunOrdered(lo, hi, band);
    }
  }

  // ---------------------------------------------------------------------
  // The corrected narrowed walk: openings reaching into the band are clipped
  // ---------------------------------------------------------------------

  /** Whether s reaches into [lo, hi]. */
  predicate Reaches(s: Interval, lo: real, hi: real) {
    s.start <= hi && lo <= s.end
  }

  /** s cut back to [lo, hi]. */
  function Clip(s: Interval, lo: real, hi: real): Interval {
    Interval(Max(lo, s.start), Min(hi, s.end))
  }

  /** The openings that reach into [lo, hi], each cut back to [lo, hi], in their order. */
  function ClippedTo(spans: seq<Interval>, lo: real, hi: real): (r: seq<Interval>)
    ensures |r| <= |spans|
  {
    if spans == [] then []
    else
      (if Reaches(spans[0], lo, hi) then [Clip(spans[0], lo, hi)] else []) + ClippedTo(spans[1..], lo, hi)
  }

  /** Clipping never moves a start below a bound that every opening's start respects. */
  lemma {:induction false} ClippedStartsAfter(spans: seq<Interval>, lo: real, hi: real, bound: real)
    requires forall k :: 0 <= k < |spans| ==> bound <= spans[k].start
    ensures forall k :: 0 <= k < |ClippedTo(spans, lo, hi)| ==> bound <= ClippedTo(spans, lo, hi)[k].start
    decreases |spans|
  {
    if spans != [] {
      var head := if Reaches(spans[0], lo, hi) then [Clip(spans[0], lo, hi)] else [];
      var rest := ClippedTo(spans[1..], lo, hi);
      assert ClippedTo(spans, lo, hi) == head + rest;
      ClippedStartsAfter(spans[1..], lo, hi, bound);
    }
  }

  /** Clipping ordered openings to [lo, hi] gives well-formed, ordered intervals inside [lo, hi]. */
  lemma {:induction false} ClippedOrdered(spans: seq<Interval>, lo: real, hi: real)
    requires lo < hi && WellFormed(spans) && Ordered(spans)
    ensures WellFormed(ClippedTo(spans, lo, hi)) && Ordered(ClippedTo(spans, lo, hi)) && Inside(ClippedTo(spans, lo, hi), lo, hi)
  {
    ClippedBounded(spans, lo, hi);
    ClippedInOrder(spans, lo, hi);
  }

  /** Each clipped interval is well formed and lies inside [lo, hi]. */
  lemma {:induction false} ClippedBounded(spans: seq<Interval>, lo: real, hi: real)
    requires lo <= hi && WellFormed(spans)
    ensures WellFormed(ClippedTo(spans, lo, hi)) && Inside(ClippedTo(spans, lo, hi), lo, hi)
    decreases |spans|
  {
    if spans != [] {
      var c := ClippedTo(spans, lo, hi);
      var head := if Reaches(spans[0], lo, hi) then [Clip(spans[0], lo, hi)] else [];
      var rest := ClippedTo(spans[1..], lo, hi);
      assert c == head + rest;
      ClippedBounded(spans[1..], lo, hi);
      forall k | 0 <= k < |c| ensures c[k].start <= c[k].end && lo <= c[k].start && c[k].end <= hi {
        if k >= |head| {
          assert c[k] == rest[k - |head|];
        }
      }
    }
  }

  /** Clipping keeps ordered openings in order. */
  lemma {:induction false} ClippedInOrder(spans: seq<Interval>, lo: real, hi: real)
    requires Ordered(spans)
    ensures Ordered(ClippedTo(spans, lo, hi))
    decreases |spans|
  {
    if spans != [] {
      var c := ClippedTo(spans, lo, hi);
      var s := spans[0];
      var tail := spans[1..];
      var head := if Reaches(s, lo, hi) then [Clip(s, lo, hi)] else [];
      var rest := ClippedTo(tail, lo, hi);
      assert c == head + rest;
      assert Ordered(tail) by {
        forall i, j | 0 <= i < j < |tail| ensures tail[i].end <= tail[j].start {
          assert tail[i] == spans[i + 1] && tail[j] == spans[j + 1];
        }
      }
      ClippedInOrder(tail, lo, hi);
      forall k | 0 <= k < |tail| ensures s.end <= tail[k].start {
        assert tail[k] == spans[k + 1];
      }
      ClippedStartsAfter(tail, lo, hi, s.end);
      forall i, j | 0 <= i < j < |c| ensures c[i].end <= c[j].start {
        assert c[j] == rest[j - |head|];
        if i >= |head| {
          assert c[i] == rest[i - |head|];
        }
      }
    }
  }

  /** Every point a clipped interval covers is covered by an opening. */
  lemma {:induction false} ClippedCoversLess(spans: seq<Interval>, lo: real, hi: real, p: real)
    requires Covered(ClippedTo(spans, lo, hi), p)
    ensures Covered(spans, p)
    decreases |spans|
  {
    var c := ClippedTo(spans, lo, hi);
    var s := spans[0];
    var tail := spans[1..];
    var head := if Reaches(s, lo, hi) then [Clip(s, lo, hi)] else [];
    var rest := ClippedTo(tail, lo, hi);
    assert c == head + rest;
    var i :| 0 <= i < |c| && c[i].start <= p < c[i].end;
    if i < |head| {
      assert s.start <= p < s.end;
    } else {
      assert rest[i - |head|] == c[i];
      ClippedCoversLess(tail, lo, hi, p);
      var j :| 0 <= j < |tail| && tail[j].start <= p < tail[j].end;
      assert spans[j + 1] == tail[j];
    }
  }

  /** Every point of [lo, hi) an opening covers is covered by a clipped interval. */
  lemma {:induction false} ClippedCoversTheBand(spans: seq<Interval>, lo: real, hi: real, p: real)
    requires lo <= p < hi && Covered(spans, p)
    ensures Covered(ClippedTo(spans, lo, hi), p)
    decreases |spans|
  {
    var c := ClippedTo(spans, lo, hi);
    var s := spans[0];
    var tail := spans[1..];
    var head := if Reaches(s, lo, hi) then [Clip(s, lo, hi)] else [];
    var rest := ClippedTo(tail, lo, hi);
    assert c == head + rest;
    var j :| 0 <= j < |spans| && spans[j].start <= p < spans[j].end;
    if j == 0 {
      assert c[0] == Clip(s, lo, hi) && c[0].start <= p < c[0].end;
    } else {
      assert tail[j - 1] == spans[j];
      ClippedCoversTheBand(tail, lo, hi, p);
      var i :| 0 <= i < |rest| && rest[i].start <= p < rest[i].end;
      assert c[i + |head|] == rest[i];
    }
  }

  /**
    The corrected narrowed run over ordered openings: positive-length pieces
    in increasing order inside the band, none overlapping any opening (also
    one that starts outside the band and reaches into it), and together with
    the openings covering the whole band.
  */
  lemma ClippedRunAvoidsTheOpenings(lo: real, hi: real, spans: seq<Interval>)
    requires lo < hi && Proper(spans) && Ordered(spans)
    ensures var run := Subtracted(lo, hi, ClippedTo(spans, lo, hi));
      Proper(run) && Ordered(run) && Inside(run, lo, hi) && Apart(run, spans) && Fills(run, spans, lo, hi)
  {
    var c := ClippedTo(spans, lo, hi);
    var run := Subtracted(lo, hi, c);
    ClippedOrdered(spans, lo, hi);
    SubtractedReconstructs(lo, hi, c);
    forall p | lo <= p < hi ensures Covered(run, p) || Covered(spans, p) {
      if !Covered(run, p) {
        ClippedCoversLess(spans, lo, hi, p);
      }
    }
    forall i, j | 0 <= i < |run| && 0 <= j < |spans|
      ensures run[i].end <= spans[j].start || spans[j].end <= run[i].start
    {
      if !(run[i].end <= spans[j].start || spans[j].end <= run[i].start) {
        var p := Max(run[i].start, spans[j].start);
        assert spans[j].start <= p < spans[j].end;
        assert Covered(spans, p);
        ClippedCoversTheBand(spans, lo, hi, p);
        assert false;
      }
    }
  }
}
