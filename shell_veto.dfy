/**
 The shell-window veto shared by the population simulation and the
 dirty-data stress test: the parallax motion of a body over a baseline,
 the displacement window a distance shell admits, the inclusive classifier
 and the count of tracklets it passes.

 All arithmetic is over `real` (exact); the scripts use IEEE doubles.
 */
module ShellVeto {

  /** Sky-plane motion, in arcsec per day, of a body at 1 AU. */
  const ArcsecPerDayAtOneAU: real := 3600.0

  /** A displacement window [lo, hi] in arcsec over the baseline. */
  datatype Window = Window(lo: real, hi: real)

  /** Noise-free sky-plane displacement over `baselineDays` of a body at distance `d` (AU). */
  function Displacement(d: real, baselineDays: real): (m: real)
    requires d != 0.0
  {
    ArcsecPerDayAtOneAU / d * baselineDays
  }

  /** A farther body never moves more than a nearer one. */
  lemma DisplacementAntitone(near: real, far: real, baselineDays: real)
    requires 0.0 < near <= far && baselineDays > 0.0
    ensures Displacement(far, baselineDays) <= Displacement(near, baselineDays)
    ensures near < far ==> Displacement(far, baselineDays) < Displacement(near, baselineDays)
  {
    var a, b := ArcsecPerDayAtOneAU / far, ArcsecPerDayAtOneAU / near;
    assert b - a == ArcsecPerDayAtOneAU * (far - near) / (near * far);
    assert Displacement(near, baselineDays) - Displacement(far, baselineDays) == (b - a) * baselineDays;
  }

  /**
   The window a shell admits: the farthest member (centre + half-width)
   gives the smallest displacement, the nearest (centre - half-width) the
   largest, and the margin widens both ends. The scripts divide by both
   edges without checking them, so only a zero edge is excluded.
   */
  function ShellWindow(center: real, halfWidth: real, baselineDays: real, margin: real): (w: Window)
    requires center + halfWidth != 0.0 && center - halfWidth != 0.0
    ensures w.lo + margin == Displacement(center + halfWidth, baselineDays)
    ensures w.hi - margin == Displacement(center - halfWidth, baselineDays)
  {
    Window(ArcsecPerDayAtOneAU / (center + halfWidth) * baselineDays - margin,
           ArcsecPerDayAtOneAU / (center - halfWidth) * baselineDays + margin)
  }

  /** A valid shell gives a non-empty window, and a degenerate one exactly when it has no width and no margin. */
  lemma WindowNonEmpty(center: real, halfWidth: real, baselineDays: real, margin: real)
    requires center > halfWidth >= 0.0 && baselineDays > 0.0 && margin >= 0.0
    ensures ShellWindow(center, halfWidth, baselineDays, margin).lo <= ShellWindow(center, halfWidth, baselineDays, margin).hi
    ensures ShellWindow(center, halfWidth, baselineDays, margin).lo < ShellWindow(center, halfWidth, baselineDays, margin).hi
            <==> (halfWidth > 0.0 || margin > 0.0)
  {
    DisplacementAntitone(center - halfWidth, center + halfWidth, baselineDays);
  }

  /** A wider margin gives a window that contains the narrower one. */
  lemma WindowWidensWithMargin(center: real, halfWidth: real, baselineDays: real, m1: real, m2: real)
    requires center + halfWidth != 0.0 && center - halfWidth != 0.0
    requires m1 <= m2
    ensures Contains(ShellWindow(center, halfWidth, baselineDays, m2), ShellWindow(center, halfWidth, baselineDays, m1))
  {
  }

  /** The window of the reference configuration: a 600 +/- 20 AU shell, a 2-day baseline and a 0.1 arcsec margin. */
  lemma DefaultWindow()
    ensures ShellWindow(600.0, 20.0, 2.0, 0.1) == Window(3569.0 / 310.0, 3629.0 / 290.0)
  {
  }

  /** Whether a displacement lies in the window, both ends included. */
  predicate InWindow(x: real, w: Window)
  {
    w.lo <= x && x <= w.hi
  }

  /** Every displacement `inner` admits, `outer` admits too. */
  predicate Contains(outer: Window, inner: Window)
  {
    outer.lo <= inner.lo && inner.hi <= outer.hi
  }

  /** Any member of a valid shell, observed with noise no larger than the margin, lands in the window. */
  lemma ShellMemberInWindow(center: real, halfWidth: real, baselineDays: real, margin: real, d: real, noise: real)
    requires center > halfWidth >= 0.0 && baselineDays > 0.0
    requires center - halfWidth <= d <= center + halfWidth
    requires -margin <= noise <= margin
    ensures InWindow(Displacement(d, baselineDays) + noise, ShellWindow(center, halfWidth, baselineDays, margin))
  {
    DisplacementAntitone(center - halfWidth, d, baselineDays);
    DisplacementAntitone(d, center + halfWidth, baselineDays);
  }

  /** The classifier: one flag per displacement, set exactly when the displacement lies in the window. */
  function ApplyFilter(motions: seq<real>, w: Window): (passed: seq<bool>)
    ensures |passed| == |motions|
    ensures forall i :: 0 <= i < |motions| ==> (passed[i] <==> w.lo <= motions[i] <= w.hi)
  {
    seq(|motions|, i requires 0 <= i < |motions| => InWindow(motions[i], w))
  }

  /** Both bounds of a non-empty window pass; anything beyond either bound fails. */
  lemma FilterInclusive(w: Window, eps: real)
    requires w.lo <= w.hi && eps > 0.0
    ensures ApplyFilter([w.lo - eps, w.lo, w.hi, w.hi + eps], w) == [false, true, true, false]
  {
  }

  /** The number of set flags in a pass mask. */
  function CountPassed(passed: seq<bool>): (n: nat)
    ensures n <= |passed|
    ensures n == |passed| <==> (forall i :: 0 <= i < |passed| ==> passed[i])
    ensures n == 0 <==> (forall i :: 0 <= i < |passed| ==> !passed[i])
  {
    if |passed| == 0 then 0
    else CountPassed(passed[..|passed| - 1]) + (if passed[|passed| - 1] then 1 else 0)
  }

  /** The positions of the flags that are set. */
  ghost function SetPositions(passed: seq<bool>): set<int>
  {
    set i | 0 <= i < |passed| && passed[i]
  }

  /** The positions of the displacements that lie in the window. */
  ghost function PassedIndices(motions: seq<real>, w: Window): set<int>
  {
    set i | 0 <= i < |motions| && InWindow(motions[i], w)
  }

  /** The count is the number of positions whose flag is set. */
  lemma {:induction false} CountPassedIsSetPositions(passed: seq<bool>)
    ensures CountPassed(passed) == |SetPositions(passed)|
  {
    if |passed| > 0 {
      var k := |passed| - 1;
      var prefix := passed[..k];
      CountPassedIsSetPositions(prefix);
      assert SetPositions(prefix) == set i | 0 <= i < k && passed[i];
      if passed[k] {
        assert SetPositions(passed) == SetPositions(prefix) + {k};
      } else {
        assert SetPositions(passed) == SetPositions(prefix);
      }
    }
  }

  /** The count of a filtered population is the number of displacements inside the window. */
  lemma CountFilteredIsPassedIndices(motions: seq<real>, w: Window)
    ensures CountPassed(ApplyFilter(motions, w)) == |PassedIndices(motions, w)|
  {
    CountPassedIsSetPositions(ApplyFilter(motions, w));
    assert SetPositions(ApplyFilter(motions, w)) == PassedIndices(motions, w);
  }

  /** A mask that sets a superset of another's flags counts at least as many. */
  lemma {:induction false} CountPointwiseMonotone(fewer: seq<bool>, more: seq<bool>)
    requires |fewer| == |more|
    requires forall i :: 0 <= i < |fewer| && fewer[i] ==> more[i]
    ensures CountPassed(fewer) <= CountPassed(more)
  {
    if |fewer| > 0 {
      var k := |fewer| - 1;
      CountPointwiseMonotone(fewer[..k], more[..k]);
    }
  }

  /** Widening the window never lowers the number of passing displacements. */
  lemma CountMonotoneInWindow(motions: seq<real>, inner: Window, outer: Window)
    requires Contains(outer, inner)
    ensures CountPassed(ApplyFilter(motions, inner)) <= CountPassed(ApplyFilter(motions, outer))
  {
    CountPointwiseMonotone(ApplyFilter(motions, inner), ApplyFilter(motions, outer));
  }
}
